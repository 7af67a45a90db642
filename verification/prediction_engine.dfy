/**
 * The prediction engine's scoring rules: the approval probability and its
 * clamps, the precedent and conservation-area modifiers, the confidence,
 * the decision timeline, the trend analysis, the comparison of scenarios
 * and the per-ward statistics cache.
 *
 * The current month and the database's ward lookup are inputs. Reals stand
 * for Python floats.
 */
module PredictionEngine {
  import opened Common
  import opened StableSort
  import WardStats

  // ---------------------------------------------------------------------
  // Tables

  /** `BASE_RATES`, with 0.70 for a type not in the table. */
  function BaseRate(developmentType: string): (r: real)
    ensures 0.55 <= r <= 0.90
  {
    if developmentType == "Rear Extension" then 0.85
    else if developmentType == "Side Extension" then 0.82
    else if developmentType == "Loft Conversion" then 0.80
    else if developmentType == "Dormer Window" then 0.75
    else if developmentType == "Basement/Subterranean" then 0.70
    else if developmentType == "Roof Extension" then 0.72
    else if developmentType == "Change of Use" then 0.65
    else if developmentType == "New Build" then 0.55
    else if developmentType == "Demolition" then 0.60
    else if developmentType == "Alterations" then 0.88
    else if developmentType == "Listed Building Consent" then 0.65
    else if developmentType == "Tree Works" then 0.90
    else 0.70
  }

  /** The areas the penalty table names, with their penalties. */
  function TablePenalty(area: string): Option<real>
  {
    if area == "Hampstead Conservation Area" then Some(0.15)
    else if area == "Belsize Conservation Area" then Some(0.12)
    else if area == "Redington Frognal Conservation Area" then Some(0.12)
    else if area == "South Hampstead Conservation Area" then Some(0.10)
    else if area == "Swiss Cottage Conservation Area" then Some(0.08)
    else if area == "Primrose Hill Conservation Area" then Some(0.10)
    else if area == "None" then Some(0.0)
    else None
  }

  /**
   * `CONSERVATION_PENALTIES.get(conservation_area or "None", 0.05)`: no
   * area (or an empty name) counts as "None"; an area the table does not
   * name gets 0.05.
   */
  function ConservationPenalty(area: Option<string>): (p: real)
    ensures area.None? || area == Some("") || area == Some("None") ==> p == 0.0
    ensures area.Some? && area.value != "" && TablePenalty(area.value).None? ==> p == 0.05
    ensures 0.0 <= p <= 0.15
  {
    var key := if area.None? || area.value == "" then "None" else area.value;
    match TablePenalty(key)
    case Some(p) => p
    case None => 0.05
  }

  /** Only Hampstead, Belsize and Redington Frognal bring the modifier below 0.9. */
  lemma RestrictiveAreas(area: Option<string>)
    ensures 1.0 - ConservationPenalty(area) < 0.9 <==>
              area == Some("Hampstead Conservation Area") || area == Some("Belsize Conservation Area")
              || area == Some("Redington Frognal Conservation Area")
  {
  }

  /** The precedent multiplier: 1.15, 1.08, 1.0 or 0.90 by count and mean similarity. */
  function PrecedentStrength(count: int, avgSimilarity: real): (s: real)
    ensures s == 1.15 <==> count >= 5 && avgSimilarity >= 0.8
    ensures s == 1.08 <==> !(count >= 5 && avgSimilarity >= 0.8) && count >= 3 && avgSimilarity >= 0.7
    ensures s == 0.90 <==> count < 1
    ensures 0.90 <= s <= 1.15
  {
    if count >= 5 && avgSimilarity >= 0.8 then 1.15
    else if count >= 3 && avgSimilarity >= 0.7 then 1.08
    else if count >= 1 then 1.0
    else 0.90
  }

  /** More precedents, or more similar ones, never weaken the multiplier. */
  lemma PrecedentStrengthMonotone(c1: int, a1: real, c2: int, a2: real)
    requires c1 <= c2 && a1 <= a2
    ensures PrecedentStrength(c1, a1) <= PrecedentStrength(c2, a2)
  {
  }

  /** January to March 0.98, April to June 1.02, the rest of the year 1.0. */
  function SeasonalModifier(month: int): (m: real)
    ensures 0.98 <= m <= 1.02
    ensures m < 1.0 <==> 1 <= month <= 3
  {
    if 1 <= month <= 3 then 0.98 else if 4 <= month <= 6 then 1.02 else 1.0
  }

  /** `complexity_modifiers.get(proposal_complexity, 1.0)`. */
  function ComplexityModifier(complexity: string): (m: real)
    ensures m < 1.0 <==> complexity == "complex"
    ensures 0.90 <= m <= 1.05
  {
    if complexity == "simple" then 1.05 else if complexity == "complex" then 0.90 else 1.0
  }

  /** `_get_recent_trend`: a fixed 0.0, so the trend modifier is always 1.0. */
  const RecentTrend := 0.0

  // ---------------------------------------------------------------------
  // Confidence and timeline

  /**
   * `_calculate_confidence`: 0.5 plus 0.4 times the mean of the three
   * scaled counts, that mean capped at 1.
   */
  function Confidence(precedentCount: int, wardDataPoints: int, typeDataPoints: int): (c: real)
    ensures c <= 0.9
    ensures precedentCount >= 0 && wardDataPoints >= 0 && typeDataPoints >= 0 ==> 0.5 <= c
  {
    var dataScore := MinReal((precedentCount as real / 10.0 + wardDataPoints as real / 500.0
                              + typeDataPoints as real / 100.0) / 3.0, 1.0);
    0.5 + dataScore * 0.4
  }

  /** More precedents never lower the confidence; thirty precedents with the other counts non-negative reach the cap. */
  lemma ConfidenceMonotone(p1: int, p2: int, w: int, t: int)
    requires p1 <= p2
    ensures Confidence(p1, w, t) <= Confidence(p2, w, t)
    ensures p2 >= 30 && w >= 0 && t >= 0 ==> Confidence(p2, w, t) == 0.9
  {
  }

  /** `base_times.get(development_type, 56)`. */
  function BaseDays(developmentType: string): (d: int)
    ensures d == 56 || d == 70 || d == 91
  {
    if developmentType == "Basement/Subterranean" || developmentType == "Change of Use"
       || developmentType == "Listed Building Consent" then 70
    else if developmentType == "New Build" then 91
    else 56
  }

  function ComplexityMultiplier(complexity: string): real
  {
    if complexity == "simple" then 0.9 else if complexity == "complex" then 1.3 else 1.0
  }

  /** `_estimate_timeline`: `int(base * multiplier)`, both factors positive, so the floor. */
  function EstimateTimeline(developmentType: string, complexity: string): int
  {
    (BaseDays(developmentType) as real * ComplexityMultiplier(complexity)).Floor
  }

  /**
   * The standard estimate is the base; simple proposals are quicker and
   * complex ones slower; the estimates run from 50 to 118 days.
   */
  lemma TimelineShape(developmentType: string, complexity: string)
    ensures complexity != "simple" && complexity != "complex" ==> EstimateTimeline(developmentType, complexity) == BaseDays(developmentType)
    ensures EstimateTimeline(developmentType, "simple") < BaseDays(developmentType) < EstimateTimeline(developmentType, "complex")
    ensures 50 <= EstimateTimeline(developmentType, complexity) <= 118
    ensures EstimateTimeline("Rear Extension", "simple") == 50 && EstimateTimeline("Rear Extension", "complex") == 72
  {
  }

  // ---------------------------------------------------------------------
  // Ward statistics and the cache

  /** What `_get_ward_stats` returns: the rate, the count, and the decision time when the database knew the ward. */
  datatype WardFigures = WardFigures(approvalRate: real, total: int, avgDecisionTime: Option<int>)

  const DefaultFigures := WardFigures(0.75, 0, None)

  /** The figures for a successful lookup: the database's rate and count with 56 days, or the defaults when the ward is unknown. */
  function FiguresOf(info: Option<WardStats.WardInfo>): WardFigures
  {
    match info
    case Some(w) => WardFigures(w.approvalRate, w.caseCount, Some(56))
    case None => DefaultFigures
  }

  /** `f"ward_stats_{ward}"` */
  function CacheKey(ward: string): string { "ward_stats_" + ward }

  lemma CacheKeyInjective(a: string, b: string)
    ensures CacheKey(a) == CacheKey(b) ==> a == b
  {
    if CacheKey(a) == CacheKey(b) {
      assert a == CacheKey(a)[11..] && b == CacheKey(b)[11..];
    }
  }

  /** The figures a cache and a lookup give for a ward: the cached ones, else the lookup's, else the defaults. */
  function FiguresFor(cache: map<string, WardFigures>, lookup: string -> Result<Option<WardStats.WardInfo>>,
                      ward: string): WardFigures
  {
    if CacheKey(ward) in cache then cache[CacheKey(ward)]
    else if lookup(ward).Ok? then FiguresOf(lookup(ward).value)
    else DefaultFigures
  }

  /**
   * The prediction engine's state: the cache of ward figures. The lookup
   * stands for `db.get_ward_stats`; `Err` is the exception it may raise.
   */
  class Engine {
    var cache: map<string, WardFigures>

    constructor()
      ensures cache == map[]
    {
      cache := map[];
    }

    /**
     * `_get_ward_stats`: a cached ward is answered from the cache; otherwise
     * a successful lookup is cached (a found ward or the defaults), and a
     * failed one is answered with the defaults and not cached.
     */
    method GetWardStats(ward: string, lookup: string -> Result<Option<WardStats.WardInfo>>) returns (f: WardFigures)
      modifies this
      ensures f == FiguresFor(old(cache), lookup, ward)
      ensures CacheKey(ward) in old(cache) || lookup(ward).Err? ==> cache == old(cache)
      ensures CacheKey(ward) !in old(cache) && lookup(ward).Ok? ==> cache == old(cache)[CacheKey(ward) := f]
    {
      var key := CacheKey(ward);
      if key in cache {
        return cache[key];
      }
      var stats := lookup(ward);
      if stats.Err? {
        return DefaultFigures;
      }
      f := FiguresOf(stats.value);
      cache := cache[key := f];
    }

    /** One round of `compare_scenarios`: the scenario's prediction, from its ward's figures. */
    method PredictScenario(s: Scenario, lookup: string -> Result<Option<WardStats.WardInfo>>, month: int)
      returns (result: ScenarioResult)
      modifies this
      ensures result == ResultOf(s, Predict(Resolve(s), FiguresFor(old(cache), lookup, Resolve(s).ward), month))
      ensures forall w :: FiguresFor(cache, lookup, w) == FiguresFor(old(cache), lookup, w)
    {
      var req := Resolve(s);
      ghost var before := cache;
      var figures := GetWardStats(req.ward, lookup);
      CacheTransparent(before, cache, lookup, req.ward);
      result := ResultOf(s, Predict(req, figures, month));
    }

    /**
     * `compare_scenarios`: one prediction per scenario, in a list sorted by
     * probability, highest first, ties in scenario order.
     */
    method CompareScenarios(scenarios: seq<Scenario>, lookup: string -> Result<Option<WardStats.WardInfo>>, month: int)
      returns (r: seq<ScenarioResult>)
      modifies this
      ensures r == RankScenarios(ScenarioResults(scenarios, old(cache), lookup, month))
      ensures forall w :: FiguresFor(cache, lookup, w) == FiguresFor(old(cache), lookup, w)
    {
      var results: seq<ScenarioResult> := [];
      var i := 0;
      while i < |scenarios|
        invariant 0 <= i <= |scenarios|
        invariant results == ScenarioResults(scenarios[..i], old(cache), lookup, month)
        invariant forall w :: FiguresFor(cache, lookup, w) == FiguresFor(old(cache), lookup, w)
      {
        ScenarioResultsSnoc(scenarios, i, old(cache), lookup, month);
        var result := PredictScenario(scenarios[i], lookup, month);
        results := results + [result];
        i := i + 1;
      }
      assert scenarios[..i] == scenarios;
      results := SortBy(results, NegProbability);
      r := results;
    }
  }

  /** Filling the cache from the lookup never changes the figures any ward gets. */
  lemma CacheTransparent(before: map<string, WardFigures>, after: map<string, WardFigures>,
                         lookup: string -> Result<Option<WardStats.WardInfo>>, ward: string)
    requires CacheKey(ward) in before || lookup(ward).Err? ==> after == before
    requires CacheKey(ward) !in before && lookup(ward).Ok? ==> after == before[CacheKey(ward) := FiguresFor(before, lookup, ward)]
    ensures forall w :: FiguresFor(after, lookup, w) == FiguresFor(before, lookup, w)
  {
    forall w
      ensures FiguresFor(after, lookup, w) == FiguresFor(before, lookup, w)
    {
      CacheKeyInjective(w, ward);
    }
  }

  // ---------------------------------------------------------------------
  // Prediction

  datatype PredictionRequest = PredictionRequest(
    developmentType: string,
    ward: string,
    conservationArea: Option<string>,
    precedentCount: int,
    precedentAvgSimilarity: real,
    isListedBuilding: bool,
    complexity: string)

  datatype PredictionFactors = PredictionFactors(
    wardApprovalRate: real,
    developmentTypeRate: real,
    conservationAreaModifier: real,
    precedentStrength: real,
    seasonalModifier: real,
    recentTrendModifier: real,
    complexityModifier: real)

  /** The key factors listed for and against; the percentages are the rates carried. */
  datatype KeyFactor =
    | StrongPrecedent(count: int)
    | HighWardRate(rate: real)
    | GoodTypeRate(developmentType: string, rate: real)
    | PositiveTrend
    | ConservationRestrictions(area: Option<string>)
    | ListedBuilding
    | LimitedPrecedent
    | ComplexProposal

  /** The four recommendations. */
  datatype Outlook = ProceedConfidently | GoodProspects | MixedIndicators | SignificantRisks
  {
    function Rank(): int
    {
      match this
      case ProceedConfidently => 0
      case GoodProspects => 1
      case MixedIndicators => 2
      case SignificantRisks => 3
    }
  }

  /** The recommendation tiers at 0.8, 0.65 and 0.5. */
  function OutlookFor(probability: real): Outlook
  {
    if probability >= 0.8 then ProceedConfidently
    else if probability >= 0.65 then GoodProspects
    else if probability >= 0.5 then MixedIndicators
    else SignificantRisks
  }

  /** A higher probability never gets a more cautious recommendation. */
  lemma OutlookMonotone(p: real, q: real)
    requires p <= q
    ensures OutlookFor(q).Rank() <= OutlookFor(p).Rank()
  {
  }

  datatype Prediction = Prediction(
    probability: real,
    confidence: real,
    factors: PredictionFactors,
    comparableCases: int,
    positives: seq<KeyFactor>,
    negatives: seq<KeyFactor>,
    recommendation: Outlook,
    timelineDays: int)

  /** `_get_type_stats`: the table rate for the type and a fixed total of 50. */
  const TypeDataPoints := 50

  /** The factors listed for a proposal: strong precedent support, a high ward or type rate, a positive trend. */
  function Positives(req: PredictionRequest, wardRate: real): (ps: seq<KeyFactor>)
    ensures StrongPrecedent(req.precedentCount) in ps <==> req.precedentCount >= 3 && req.precedentAvgSimilarity >= 0.7
    ensures HighWardRate(wardRate) in ps <==> wardRate > 0.8
    ensures PositiveTrend !in ps
  {
    var typeRate := BaseRate(req.developmentType);
    (if PrecedentStrength(req.precedentCount, req.precedentAvgSimilarity) > 1.05 then [StrongPrecedent(req.precedentCount)] else [])
    + (if wardRate > 0.8 then [HighWardRate(wardRate)] else [])
    + (if typeRate > 0.8 then [GoodTypeRate(req.developmentType, typeRate)] else [])
    + (if RecentTrend > 0.05 then [PositiveTrend] else [])
  }

  /** The factors listed against: a strict conservation area, a listed building, few precedents, complexity. */
  function Negatives(req: PredictionRequest): (ns: seq<KeyFactor>)
    ensures LimitedPrecedent in ns <==> req.precedentCount < 2
    ensures ListedBuilding in ns <==> req.isListedBuilding
    ensures ComplexProposal in ns <==> req.complexity == "complex"
    ensures ConservationRestrictions(req.conservationArea) in ns <==> ConservationPenalty(req.conservationArea) > 0.1
  {
    (if 1.0 - ConservationPenalty(req.conservationArea) < 0.9 then [ConservationRestrictions(req.conservationArea)] else [])
    + (if req.isListedBuilding then [ListedBuilding] else [])
    + (if req.precedentCount < 2 then [LimitedPrecedent] else [])
    + (if ComplexityModifier(req.complexity) < 1.0 then [ComplexProposal] else [])
  }

  /**
   * `predict_approval` once the ward figures are known: the weighted base
   * rate times the six modifiers, clamped to [0.1, 0.95].
   */
  function Predict(req: PredictionRequest, ward: WardFigures, month: int): (p: Prediction)
    ensures 0.1 <= p.probability <= 0.95
    ensures p.recommendation == OutlookFor(p.probability)
    ensures p.comparableCases == req.precedentCount + TypeDataPoints
    ensures p.timelineDays == EstimateTimeline(req.developmentType, req.complexity)
    ensures req.precedentCount >= 0 && ward.total >= 0 ==> 0.5 <= p.confidence <= 0.9
    ensures p.factors.precedentStrength == PrecedentStrength(req.precedentCount, req.precedentAvgSimilarity)
    ensures p.factors.conservationAreaModifier == 1.0 - ConservationPenalty(req.conservationArea)
    ensures p.positives == Positives(req, ward.approvalRate) && p.negatives == Negatives(req)
  {
    var typeRate := BaseRate(req.developmentType);
    var caModifier := 1.0 - ConservationPenalty(req.conservationArea);
    var lbModifier := if req.isListedBuilding then 0.85 else 1.0;
    var strength := PrecedentStrength(req.precedentCount, req.precedentAvgSimilarity);
    var seasonal := SeasonalModifier(month);
    var trendModifier := 1.0 + RecentTrend * 0.05;
    var complexity := ComplexityModifier(req.complexity);
    var factors := PredictionFactors(ward.approvalRate, typeRate, caModifier, strength, seasonal, trendModifier, complexity);
    var baseProb := typeRate * 0.4 + ward.approvalRate * 0.3 + BaseRate(req.developmentType) * 0.3;
    var raw := baseProb * caModifier * lbModifier * strength * seasonal * trendModifier * complexity;
    var probability := ClampReal(raw, 0.1, 0.95);
    Prediction(probability, Confidence(req.precedentCount, ward.total, TypeDataPoints), factors,
               req.precedentCount + TypeDataPoints, Positives(req, ward.approvalRate), Negatives(req),
               OutlookFor(probability), EstimateTimeline(req.developmentType, req.complexity))
  }

  // ---------------------------------------------------------------------
  // Scenarios

  /** A scenario as given: every field may be missing. */
  datatype Scenario = Scenario(
    name: Option<string>,
    developmentType: Option<string>,
    ward: Option<string>,
    conservationArea: Option<string>,
    precedentCount: Option<int>,
    precedentSimilarity: Option<real>,
    complexity: Option<string>)

  /** The request a scenario makes, with the handler's defaults; listed-building status is never passed. */
  function Resolve(s: Scenario): (req: PredictionRequest)
    ensures s.developmentType.None? ==> req.developmentType == "Other"
    ensures s.ward.None? ==> req.ward == "Unknown"
    ensures s.complexity.None? ==> req.complexity == "standard"
    ensures !req.isListedBuilding && req.conservationArea == s.conservationArea
  {
    PredictionRequest(OrElse(s.developmentType, "Other"), OrElse(s.ward, "Unknown"), s.conservationArea,
                      OrElse(s.precedentCount, 0), OrElse(s.precedentSimilarity, 0.0), false,
                      OrElse(s.complexity, "standard"))
  }

  datatype ScenarioResult = ScenarioResult(
    scenarioName: string,
    probability: real,
    recommendation: Outlook,
    keyAdvantages: seq<KeyFactor>,
    keyRisks: seq<KeyFactor>)

  function ResultOf(s: Scenario, p: Prediction): ScenarioResult
  {
    ScenarioResult(OrElse(s.name, "Unnamed"), p.probability, p.recommendation, p.positives, p.negatives)
  }

  /** Each scenario's result, in scenario order, from the figures of its ward. */
  function ScenarioResults(scenarios: seq<Scenario>, cache: map<string, WardFigures>,
                           lookup: string -> Result<Option<WardStats.WardInfo>>, month: int): (rs: seq<ScenarioResult>)
    ensures |rs| == |scenarios|
  {
    if scenarios == [] then []
    else
      var s := scenarios[|scenarios| - 1];
      var req := Resolve(s);
      ScenarioResults(scenarios[..|scenarios| - 1], cache, lookup, month)
      + [ResultOf(s, Predict(req, FiguresFor(cache, lookup, req.ward), month))]
  }

  lemma ScenarioResultsSnoc(scenarios: seq<Scenario>, i: nat, cache: map<string, WardFigures>,
                            lookup: string -> Result<Option<WardStats.WardInfo>>, month: int)
    requires i < |scenarios|
    ensures var s := scenarios[i];
            ScenarioResults(scenarios[..i + 1], cache, lookup, month)
            == ScenarioResults(scenarios[..i], cache, lookup, month)
               + [ResultOf(s, Predict(Resolve(s), FiguresFor(cache, lookup, Resolve(s).ward), month))]
  {
    assert scenarios[..i + 1][..i] == scenarios[..i];
  }

  /** `key=lambda x: x["probability"], reverse=True`: ascending by the negated probability. */
  function NegProbability(r: ScenarioResult): real { -r.probability }

  function RankScenarios(results: seq<ScenarioResult>): seq<ScenarioResult>
  {
    SortBy(results, NegProbability)
  }

  /** The ranking holds the same results, highest probability first. */
  lemma RankDescending(results: seq<ScenarioResult>)
    ensures var r := RankScenarios(results);
      && |r| == |results| && multiset(r) == multiset(results)
      && forall i, j :: 0 <= i < j < |r| ==> r[i].probability >= r[j].probability
  {
    var r := RankScenarios(results);
    SortBySorted(results, NegProbability);
    assert forall i, j :: 0 <= i < j < |r| ==> NegProbability(r[i]) <= NegProbability(r[j]);
  }

  /** Results with the same probability keep their scenario order. */
  lemma RankStable(results: seq<ScenarioResult>, p: real)
    ensures Filter(RankScenarios(results), KeyIs(NegProbability, -p)) == Filter(results, KeyIs(NegProbability, -p))
  {
    SortByStable(results, NegProbability, -p);
  }

  /** The comparison holds one result per scenario, every probability within [0.1, 0.95]. */
  lemma CompareScenariosInRange(scenarios: seq<Scenario>, cache: map<string, WardFigures>,
                                lookup: string -> Result<Option<WardStats.WardInfo>>, month: int)
    ensures var r := RankScenarios(ScenarioResults(scenarios, cache, lookup, month));
      |r| == |scenarios| && forall x :: x in r ==> 0.1 <= x.probability <= 0.95
  {
    var rs := ScenarioResults(scenarios, cache, lookup, month);
    ResultsInRange(scenarios, cache, lookup, month);
    SortByMembers(rs, NegProbability);
  }

  lemma {:induction false} ResultsInRange(scenarios: seq<Scenario>, cache: map<string, WardFigures>,
                                          lookup: string -> Result<Option<WardStats.WardInfo>>, month: int)
    ensures forall x :: x in ScenarioResults(scenarios, cache, lookup, month) ==> 0.1 <= x.probability <= 0.95
  {
    if scenarios != [] {
      ResultsInRange(scenarios[..|scenarios| - 1], cache, lookup, month);
    }
  }

  // ---------------------------------------------------------------------
  // Trends

  datatype Direction = Increasing | Decreasing | Stable

  /** What `_get_period_stats` reports for a period. */
  datatype PeriodStats = PeriodStats(approvalRate: real, total: int)

  /** `_get_period_stats` as written: the same figures for every period. */
  const StubPeriod := PeriodStats(0.75, 100)

  datatype Notable = SignificantTrend(direction: Direction, change: real) | VolumesDeclining | VolumesIncreasing

  datatype TrendAnalysis = TrendAnalysis(
    ward: string,
    developmentType: Option<string>,
    periodMonths: int,
    approvalRateCurrent: real,
    approvalRatePrevious: real,
    direction: Direction,
    strength: real,
    notableChanges: seq<Notable>,
    predictionNextQuarter: real)

  /**
   * `analyse_trends` from the two periods' figures: the direction by a
   * 0.05 dead band, the strength five times the change capped to [-1, 1],
   * the notable changes, and the momentum prediction clamped to [0.3, 0.95].
   */
  function AnalyseTrends(ward: string, developmentType: Option<string>, months: int,
                         current: PeriodStats, previous: PeriodStats): (t: TrendAnalysis)
    ensures var change := current.approvalRate - previous.approvalRate;
      && (t.direction == Increasing <==> change > 0.05)
      && (t.direction == Decreasing <==> change < -0.05)
      && -1.0 <= t.strength <= 1.0
      && (t.strength > 0.0 <==> change > 0.0) && (t.strength < 0.0 <==> change < 0.0)
      && 0.3 <= t.predictionNextQuarter <= 0.95
      && (0.3 <= current.approvalRate + change * 0.5 <= 0.95 ==> t.predictionNextQuarter == current.approvalRate + change * 0.5)
      && (SignificantTrend(t.direction, change) in t.notableChanges <==> change > 0.1 || change < -0.1)
      && (VolumesDeclining in t.notableChanges <==> (current.total as real) < (previous.total as real) * 0.8)
      && (VolumesIncreasing in t.notableChanges <==>
            !((current.total as real) < (previous.total as real) * 0.8) && (current.total as real) > (previous.total as real) * 1.2)
  {
    var change := current.approvalRate - previous.approvalRate;
    var direction := if change > 0.05 then Increasing else if change < -0.05 then Decreasing else Stable;
    var strength :=
      if change > 0.05 then MinReal(change * 5.0, 1.0)
      else if change < -0.05 then MaxReal(change * 5.0, -1.0)
      else change * 5.0;
    var significant := if change > 0.1 || change < -0.1 then [SignificantTrend(direction, change)] else [];
    var volume :=
      if (current.total as real) < (previous.total as real) * 0.8 then [VolumesDeclining]
      else if (current.total as real) > (previous.total as real) * 1.2 then [VolumesIncreasing]
      else [];
    TrendAnalysis(ward, developmentType, months, current.approvalRate, previous.approvalRate, direction, strength,
                  significant + volume, ClampReal(current.approvalRate + change * 0.5, 0.3, 0.95))
  }

  /** With the period figures as `_get_period_stats` gives them, every analysis is stable with nothing notable. */
  lemma StubTrendsStable(ward: string, developmentType: Option<string>, months: int)
    ensures var t := AnalyseTrends(ward, developmentType, months, StubPeriod, StubPeriod);
      t.direction == Stable && t.strength == 0.0 && t.notableChanges == [] && t.predictionNextQuarter == 0.75
  {
  }
}
