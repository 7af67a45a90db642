/**
 * The rule-based half of the planning-document analyser: overall officer
 * sentiment, the decision outcome, planning conditions and their
 * categories, policy references, the comparison of two documents' policies,
 * and the filtering and ordering of extracted sections. Regular-expression
 * searches and the language model's replies are inputs.
 */
module DocumentAnalyzer {
  import opened Common
  import opened PyStr
  import StableSort
  import Scraper

  // ---------------------------------------------------------------------
  // Overall sentiment

  datatype SentimentLevel = VeryPositive | Positive | Neutral | Negative | VeryNegative
  {
    function Value(): string
    {
      match this
      case VeryPositive => "very_positive"
      case Positive => "positive"
      case Neutral => "neutral"
      case Negative => "negative"
      case VeryNegative => "very_negative"
    }

    /** The score each level contributes: +2 down to -2. */
    function Score(): int
    {
      match this
      case VeryPositive => 2
      case Positive => 1
      case Neutral => 0
      case Negative => -1
      case VeryNegative => -2
    }
  }

  /** A key officer statement, as the language model reports it. */
  datatype OfficerStatement = OfficerStatement(text: string, sentiment: SentimentLevel, topic: string, isConclusion: bool)

  /** Conclusions weigh twice as much as other statements. */
  function Weight(st: OfficerStatement): nat
  {
    if st.isConclusion then 2 else 1
  }

  function TotalScore(ss: seq<OfficerStatement>): int
  {
    if ss == [] then 0
    else TotalScore(ss[..|ss| - 1]) + ss[|ss| - 1].sentiment.Score() * Weight(ss[|ss| - 1])
  }

  function TotalWeight(ss: seq<OfficerStatement>): (w: nat)
    ensures |ss| <= w <= 2 * |ss|
  {
    if ss == [] then 0
    else TotalWeight(ss[..|ss| - 1]) + Weight(ss[|ss| - 1])
  }

  /** The level of a weighted mean score, with cut-offs at 1.5, 0.5, -0.5 and -1.5. */
  function Bucket(avg: real): SentimentLevel
  {
    if avg >= 1.5 then VeryPositive
    else if avg >= 0.5 then Positive
    else if avg >= -0.5 then Neutral
    else if avg >= -1.5 then Negative
    else VeryNegative
  }

  /** The overall sentiment of a list of statements; NEUTRAL when there are none. */
  function OverallSentiment(ss: seq<OfficerStatement>): SentimentLevel
  {
    if ss == [] then Neutral
    else
      var w := TotalWeight(ss);
      Bucket(if w == 0 then 0.0 else TotalScore(ss) as real / w as real)
  }

  /** The accumulation loop of the analyser, proved to compute `OverallSentiment`. */
  method CalculateOverallSentiment(statements: seq<OfficerStatement>) returns (level: SentimentLevel)
    ensures level == OverallSentiment(statements)
  {
    if statements == [] {
      return Neutral;
    }
    var totalScore := 0;
    var totalWeight := 0;
    var i := 0;
    while i < |statements|
      invariant 0 <= i <= |statements|
      invariant totalScore == TotalScore(statements[..i])
      invariant totalWeight == TotalWeight(statements[..i])
    {
      assert statements[..i + 1][..i] == statements[..i];
      var weight := if statements[i].isConclusion then 2 else 1;
      totalScore := totalScore + statements[i].sentiment.Score() * weight;
      totalWeight := totalWeight + weight;
      i := i + 1;
    }
    assert statements[..|statements|] == statements;
    var avg := if totalWeight != 0 then totalScore as real / totalWeight as real else 0.0;
    level := Bucket(avg);
  }

  /** The weighted score never leaves the range of the individual scores. */
  lemma {:induction false} TotalScoreBounds(ss: seq<OfficerStatement>)
    ensures -2 * TotalWeight(ss) <= TotalScore(ss) <= 2 * TotalWeight(ss)
  {
    if ss != [] {
      TotalScoreBounds(ss[..|ss| - 1]);
    }
  }

  /** For a positive weight, comparing the mean with `c` is comparing the score with `c` times the weight. */
  lemma MeanAtLeast(s: int, w: int, c: real)
    requires w > 0
    ensures s as real / w as real >= c <==> s as real >= c * w as real
  {
    var avg := s as real / w as real;
    assert avg * w as real == s as real;
    if avg >= c {
      assert (avg - c) * w as real >= 0.0;
    } else {
      assert (c - avg) * w as real > 0.0;
    }
  }

  lemma BucketIntegers(s: int, w: int)
    requires w > 0
    ensures var r := Bucket(s as real / w as real);
      && (r == VeryPositive <==> 2 * s >= 3 * w)
      && (r == Positive <==> w <= 2 * s < 3 * w)
      && (r == Neutral <==> -w <= 2 * s < w)
      && (r == Negative <==> -3 * w <= 2 * s < -w)
      && (r == VeryNegative <==> 2 * s < -3 * w)
  {
    MeanAtLeast(s, w, 1.5);
    MeanAtLeast(s, w, 0.5);
    MeanAtLeast(s, w, -0.5);
    MeanAtLeast(s, w, -1.5);
  }

  /** The buckets in integers: with score `s` and weight `w`, the mean is at least 1.5 exactly when `2s >= 3w`, and so on down. */
  lemma OverallSentimentIntegers(ss: seq<OfficerStatement>)
    requires ss != []
    ensures var s, w, r := TotalScore(ss), TotalWeight(ss) as int, OverallSentiment(ss);
      && (r == VeryPositive <==> 2 * s >= 3 * w)
      && (r == Positive <==> w <= 2 * s < 3 * w)
      && (r == Neutral <==> -w <= 2 * s < w)
      && (r == Negative <==> -3 * w <= 2 * s < -w)
      && (r == VeryNegative <==> 2 * s < -3 * w)
  {
    BucketIntegers(TotalScore(ss), TotalWeight(ss));
  }

  lemma {:induction false} UnanimousScore(ss: seq<OfficerStatement>, level: SentimentLevel)
    requires forall k :: 0 <= k < |ss| ==> ss[k].sentiment == level
    ensures TotalScore(ss) == level.Score() * TotalWeight(ss)
  {
    if ss != [] {
      UnanimousScore(ss[..|ss| - 1], level);
    }
  }

  /** When every statement has the same level, so has the document. */
  lemma UnanimousSentiment(ss: seq<OfficerStatement>, level: SentimentLevel)
    requires ss != []
    requires forall k :: 0 <= k < |ss| ==> ss[k].sentiment == level
    ensures OverallSentiment(ss) == level
  {
    UnanimousScore(ss, level);
    OverallSentimentIntegers(ss);
    match level
    case VeryPositive =>
    case Positive =>
    case Neutral =>
    case Negative =>
    case VeryNegative =>
  }

  /** A concluding statement counts as the same statement made twice without being a conclusion. */
  lemma ConclusionCountsTwice(ss: seq<OfficerStatement>, st: OfficerStatement)
    requires st.isConclusion
    ensures var plain := st.(isConclusion := false);
      OverallSentiment(ss + [st]) == OverallSentiment(ss + [plain, plain])
  {
    var plain := st.(isConclusion := false);
    var one, two := ss + [st], ss + [plain, plain];
    assert one[..|ss|] == ss;
    assert two[..|ss| + 1] == ss + [plain];
    assert (ss + [plain])[..|ss|] == ss;
    assert TotalScore(one) == TotalScore(ss) + 2 * st.sentiment.Score();
    assert TotalScore(two) == TotalScore(ss) + 2 * st.sentiment.Score();
    assert TotalWeight(one) == TotalWeight(ss) + 2 == TotalWeight(two);
  }

  // ---------------------------------------------------------------------
  // Decision outcome

  /** The outcome named by the lower-cased text, checked in a fixed order. */
  function ExtractOutcome(text: string): (r: Option<string>)
    ensures r.None? || r.value in {"Granted", "Refused", "Appeal Allowed", "Appeal Dismissed"}
  {
    var t := Lower(text);
    if Contains(t, "permission is granted") || Contains(t, "approved") then Some("Granted")
    else if Contains(t, "permission is refused") || Contains(t, "refused") then Some("Refused")
    else if Contains(t, "appeal allowed") then Some("Appeal Allowed")
    else if Contains(t, "appeal dismissed") then Some("Appeal Dismissed")
    else None
  }

  lemma RefusedInPhrase()
    ensures Contains("permission is refused", "refused")
  {
    Scraper.OccursContains("permission is refused", "refused", 14);
  }

  /**
   * Each outcome in terms of the phrases that decide it. "Refused" holds
   * exactly when no grant phrase occurs and "refused" does: the longer
   * phrase "permission is refused" never decides anything on its own, and
   * an appeal decision mentioning a refusal is reported as "Refused".
   */
  lemma OutcomeSpec(text: string)
    ensures var t, r := Lower(text), ExtractOutcome(text);
      var granted := Contains(t, "permission is granted") || Contains(t, "approved");
      && (r == Some("Granted") <==> granted)
      && (r == Some("Refused") <==> !granted && Contains(t, "refused"))
      && (r == Some("Appeal Allowed") <==> !granted && !Contains(t, "refused") && Contains(t, "appeal allowed"))
      && (r == Some("Appeal Dismissed") <==>
            !granted && !Contains(t, "refused") && !Contains(t, "appeal allowed") && Contains(t, "appeal dismissed"))
      && (r == None <==>
            !granted && !Contains(t, "refused") && !Contains(t, "appeal allowed") && !Contains(t, "appeal dismissed"))
  {
    var t := Lower(text);
    if Contains(t, "permission is refused") {
      RefusedInPhrase();
      Scraper.ContainsTrans(t, "permission is refused", "refused");
    }
  }

  lemma LowerUpper(s: string)
    ensures Lower(Upper(s)) == Lower(s)
  {
  }

  /** The outcome does not depend on letter case. */
  lemma OutcomeIgnoresCase(text: string)
    ensures ExtractOutcome(Upper(text)) == ExtractOutcome(text)
  {
    LowerUpper(text);
  }

  // ---------------------------------------------------------------------
  // Planning conditions

  /** The condition categories, in the order they are tried. */
  const ConditionCategories: seq<Scraper.Rule<string>> := [
    Scraper.Rule(["commence", "begin", "start", "within 3 years"], "time_limit"),
    Scraper.Rule(["materials", "samples", "finishes", "brick", "render"], "materials"),
    Scraper.Rule(["design", "details", "drawings", "specification"], "design"),
    Scraper.Rule(["hours", "noise", "dust", "construction", "privacy"], "amenity"),
    Scraper.Rule(["parking", "access", "highway", "vehicle", "cycle"], "highways"),
    Scraper.Rule(["landscaping", "planting", "trees", "garden"], "landscaping"),
    Scraper.Rule(["drainage", "surface water", "sewerage", "flood"], "drainage"),
    Scraper.Rule(["contamination", "remediation", "soil"], "contamination"),
    Scraper.Rule(["archaeological", "heritage", "recording"], "archaeology")
  ]

  const GeneralCategory := "general"

  /** Phrases that mark a condition as needing something submitted for approval. */
  const SubmissionPhrases: seq<string> := ["submitted to", "approved by", "shall be submitted", "for approval"]

  const MaxConditionLength := 500

  datatype ExtractedCondition = ExtractedCondition(number: nat, text: string, category: string, requiresSubmission: bool)

  /** One condition from the condition pattern's number and body. */
  function ConditionOf(number: string, content: string): ExtractedCondition
  {
    var text := Take(Strip(content), MaxConditionLength);
    ExtractedCondition(
      DigitsValue(number), text,
      Scraper.Classify(text, ConditionCategories, GeneralCategory),
      ContainsAny(Lower(text), SubmissionPhrases))
  }

  /** The category loop with its early exit, proved to pick the first category that fires. */
  method Categorise(content: string) returns (category: string)
    ensures category == Scraper.Classify(content, ConditionCategories, GeneralCategory)
  {
    var lower := Lower(content);
    category := GeneralCategory;
    var i := 0;
    while i < |ConditionCategories|
      invariant 0 <= i <= |ConditionCategories|
      invariant forall j :: 0 <= j < i ==> !ContainsAny(lower, ConditionCategories[j].keywords)
      invariant category == GeneralCategory
    {
      if ContainsAny(lower, ConditionCategories[i].keywords) {
        category := ConditionCategories[i].value;
        Scraper.FirstHitIs(lower, ConditionCategories, i);
        return;
      }
      i := i + 1;
    }
    Scraper.FirstHitNone(lower, ConditionCategories);
  }

  /** The loop body for one match: cut, categorise and flag the condition. */
  method ConditionFrom(number: string, content: string) returns (condition: ExtractedCondition)
    ensures condition == ConditionOf(number, content)
  {
    var text := Take(Strip(content), MaxConditionLength);
    var category := Categorise(text);
    var requiresSubmission := ContainsAny(Lower(text), SubmissionPhrases);
    condition := ExtractedCondition(DigitsValue(number), text, category, requiresSubmission);
  }

  /** One match of the condition pattern: the condition's number and its body. */
  datatype ConditionMatch = ConditionMatch(number: string, body: string)

  /** The conditions of a list of matches, one each, in order. */
  function ConditionsOf(matches: seq<ConditionMatch>): (r: seq<ExtractedCondition>)
    ensures |r| == |matches|
    ensures forall k :: 0 <= k < |matches| ==> r[k] == ConditionOf(matches[k].number, matches[k].body)
  {
    if matches == [] then []
    else
      var last := matches[|matches| - 1];
      ConditionsOf(matches[..|matches| - 1]) + [ConditionOf(last.number, last.body)]
  }

  /** Every condition the pattern finds, in order. */
  method ExtractConditions(matches: seq<ConditionMatch>) returns (conditions: seq<ExtractedCondition>)
    ensures conditions == ConditionsOf(matches)
  {
    conditions := [];
    var i := 0;
    while i < |matches|
      invariant 0 <= i <= |matches|
      invariant conditions == ConditionsOf(matches[..i])
    {
      assert matches[..i + 1][..i] == matches[..i];
      var condition := ConditionFrom(matches[i].number, matches[i].body);
      conditions := conditions + [condition];
      i := i + 1;
    }
    assert matches[..|matches|] == matches;
  }

  /**
   * A condition's text is the stripped body cut to 500 characters; its
   * category is "general" exactly when no category's keyword occurs in the
   * lower-cased text, and otherwise the first category, in table order,
   * one of whose keywords occurs; it needs a submission exactly when one of
   * the four phrases occurs.
   */
  lemma ConditionSpec(number: string, content: string)
    ensures var c := ConditionOf(number, content);
      && |c.text| <= MaxConditionLength
      && c.text == Strip(content)[..|c.text|]
      && (|Strip(content)| <= MaxConditionLength ==> c.text == Strip(content))
      && (c.category == GeneralCategory <==>
            forall j :: 0 <= j < |ConditionCategories| ==> !ContainsAny(Lower(c.text), ConditionCategories[j].keywords))
      && (c.category != GeneralCategory ==>
            exists k :: 0 <= k < |ConditionCategories| && c.category == ConditionCategories[k].value
              && ContainsAny(Lower(c.text), ConditionCategories[k].keywords)
              && forall j :: 0 <= j < k ==> !ContainsAny(Lower(c.text), ConditionCategories[j].keywords))
      && (c.requiresSubmission <==> exists p :: p in SubmissionPhrases && Contains(Lower(c.text), p))
  {
    var c := ConditionOf(number, content);
    var hit := Scraper.FirstHit(Lower(c.text), ConditionCategories);
    if hit.Some? {
      assert c.category == ConditionCategories[hit.value].value;
      assert ConditionCategories[hit.value].value != GeneralCategory;
    }
  }

  // ---------------------------------------------------------------------
  // Policy references

  /** The five reference patterns and the source each one names. */
  datatype PolicySource = Camden | Nppf | LondonPlan | Legislation | Spd
  {
    function Name(): string
    {
      match this
      case Camden => "Camden"
      case Nppf => "NPPF"
      case LondonPlan => "London Plan"
      case Legislation => "Legislation"
      case Spd => "SPD"
    }
  }

  const PolicySources: seq<PolicySource> := [Camden, Nppf, LondonPlan, Legislation, Spd]

  /** The reference string for one match of a source's pattern. */
  function Mention(source: PolicySource, m: string): string
  {
    source.Name() + " " + m
  }

  /** The mentions of one source's matches, in match order. */
  function MentionsOf(source: PolicySource, ms: seq<string>): (r: seq<string>)
    ensures |r| == |ms|
    ensures forall k :: 0 <= k < |ms| ==> r[k] == Mention(source, ms[k])
  {
    if ms == [] then [] else MentionsOf(source, ms[..|ms| - 1]) + [Mention(source, ms[|ms| - 1])]
  }

  /** All mentions, source by source. */
  function MentionsFrom(sources: seq<PolicySource>, findall: PolicySource -> seq<string>): seq<string>
  {
    if sources == [] then []
    else MentionsFrom(sources[..|sources| - 1], findall) + MentionsOf(sources[|sources| - 1], findall(sources[|sources| - 1]))
  }

  predicate NoDuplicates(s: seq<string>)
  {
    forall i, j :: 0 <= i < j < |s| ==> s[i] != s[j]
  }

  /** Drop repeated entries, keeping the first of each. */
  method Deduplicate(xs: seq<string>) returns (ys: seq<string>)
    ensures NoDuplicates(ys)
    ensures forall x :: x in ys <==> x in xs
  {
    ys := [];
    var i := 0;
    while i < |xs|
      invariant 0 <= i <= |xs|
      invariant NoDuplicates(ys)
      invariant forall x :: x in ys <==> x in xs[..i]
    {
      assert xs[..i + 1] == xs[..i] + [xs[i]];
      if xs[i] !in ys {
        ys := ys + [xs[i]];
      }
      i := i + 1;
    }
    assert xs[..|xs|] == xs;
  }

  /**
   * The policy references of a text: "source match" for every match of
   * every pattern, without repeats. `findall` gives each pattern's matches.
   */
  method ExtractPolicies(findall: PolicySource -> seq<string>) returns (policies: seq<string>)
    ensures NoDuplicates(policies)
    ensures forall x :: x in policies <==> x in MentionsFrom(PolicySources, findall)
  {
    var all: seq<string> := [];
    var i := 0;
    while i < |PolicySources|
      invariant 0 <= i <= |PolicySources|
      invariant all == MentionsFrom(PolicySources[..i], findall)
    {
      var source := PolicySources[i];
      var ms := findall(source);
      var j := 0;
      while j < |ms|
        invariant 0 <= j <= |ms|
        invariant all == MentionsFrom(PolicySources[..i], findall) + MentionsOf(source, ms[..j])
      {
        assert ms[..j + 1][..j] == ms[..j];
        all := all + [Mention(source, ms[j])];
        j := j + 1;
      }
      assert ms[..|ms|] == ms;
      assert PolicySources[..i + 1][..i] == PolicySources[..i];
      i := i + 1;
    }
    assert PolicySources[..|PolicySources|] == PolicySources;
    policies := Deduplicate(all);
  }

  lemma MentionsOfSpec(source: PolicySource, ms: seq<string>, x: string)
    ensures x in MentionsOf(source, ms) <==> exists m :: m in ms && x == Mention(source, m)
  {
    if x in MentionsOf(source, ms) {
      var k :| 0 <= k < |ms| && MentionsOf(source, ms)[k] == x;
      assert ms[k] in ms;
    }
    if exists m :: m in ms && x == Mention(source, m) {
      var m :| m in ms && x == Mention(source, m);
      var k :| 0 <= k < |ms| && ms[k] == m;
      assert MentionsOf(source, ms)[k] == x;
    }
  }

  lemma {:induction false} MentionsFromSpec(sources: seq<PolicySource>, findall: PolicySource -> seq<string>, x: string)
    ensures x in MentionsFrom(sources, findall) <==>
      exists s, m :: s in sources && m in findall(s) && x == Mention(s, m)
  {
    if sources != [] {
      var init, last := sources[..|sources| - 1], sources[|sources| - 1];
      MentionsFromSpec(init, findall, x);
      MentionsOfSpec(last, findall(last), x);
      assert forall s :: s in sources <==> s in init || s == last;
    }
  }

  /** A reference is reported exactly when some pattern matched it, prefixed by that pattern's source. */
  lemma PoliciesSpec(findall: PolicySource -> seq<string>, x: string)
    ensures x in MentionsFrom(PolicySources, findall) <==>
      exists s, m :: s in PolicySources && m in findall(s) && x == s.Name() + " " + m
  {
    MentionsFromSpec(PolicySources, findall, x);
  }

  // ---------------------------------------------------------------------
  // Comparing two documents

  /** The language model's comparison reply; absent fields take their defaults. */
  datatype ComparisonReply = ComparisonReply(
    similarities: Option<seq<string>>, differences: Option<seq<string>>,
    outcomeComparison: Option<string>, relevanceScore: Option<real>)

  datatype DocumentComparison = DocumentComparison(
    documentA: string, documentB: string,
    similarities: seq<string>, differences: seq<string>,
    commonPolicies: set<string>, divergentPolicies: set<string>,
    outcomeComparison: string, relevanceScore: real)

  function Elements(s: seq<string>): set<string>
  {
    set x | x in s
  }

  /**
   * The comparison of two analysed documents, given their policy references
   * and the reply of the model (an error when the call or its parsing
   * failed). The policy sets are computed before the call, so they are the
   * same on both paths.
   */
  function CompareDocuments(refA: string, refB: string, policiesA: seq<string>, policiesB: seq<string>,
                            reply: Result<ComparisonReply>): (c: DocumentComparison)
    ensures forall x :: x in c.commonPolicies <==> x in policiesA && x in policiesB
    ensures forall x :: x in c.divergentPolicies <==> (x in policiesA) != (x in policiesB)
    ensures c.documentA == refA && c.documentB == refB
    ensures reply.Err? ==>
      (c.similarities == [] && c.differences == [] && c.outcomeComparison == "Comparison failed" && c.relevanceScore == 0.0)
    ensures reply.Ok? ==>
      (c.similarities == OrElse(reply.value.similarities, []) && c.differences == OrElse(reply.value.differences, [])
       && c.outcomeComparison == OrElse(reply.value.outcomeComparison, "")
       && c.relevanceScore == OrElse(reply.value.relevanceScore, 0.5))
  {
    var a, b := Elements(policiesA), Elements(policiesB);
    var common, divergent := a * b, (a - b) + (b - a);
    match reply
    case Ok(r) =>
      DocumentComparison(refA, refB, OrElse(r.similarities, []), OrElse(r.differences, []),
        common, divergent, OrElse(r.outcomeComparison, ""), OrElse(r.relevanceScore, 0.5))
    case Err(_) =>
      DocumentComparison(refA, refB, [], [], common, divergent, "Comparison failed", 0.0)
  }

  /** Common and divergent policies never overlap, and together they are every policy either document cites. */
  lemma ComparisonPartitions(refA: string, refB: string, policiesA: seq<string>, policiesB: seq<string>,
                             reply: Result<ComparisonReply>)
    ensures var c := CompareDocuments(refA, refB, policiesA, policiesB, reply);
      c.commonPolicies * c.divergentPolicies == {}
      && c.commonPolicies + c.divergentPolicies == Elements(policiesA) + Elements(policiesB)
  {
  }

  /** Swapping the documents leaves the policy sets as they were. */
  lemma ComparisonSymmetric(refA: string, refB: string, policiesA: seq<string>, policiesB: seq<string>,
                            reply: Result<ComparisonReply>)
    ensures var c, d := CompareDocuments(refA, refB, policiesA, policiesB, reply),
                        CompareDocuments(refB, refA, policiesB, policiesA, reply);
      c.commonPolicies == d.commonPolicies && c.divergentPolicies == d.divergentPolicies
  {
    var c, d := CompareDocuments(refA, refB, policiesA, policiesB, reply),
                CompareDocuments(refB, refA, policiesB, policiesA, reply);
    assert forall x :: x in c.commonPolicies <==> x in d.commonPolicies;
    assert forall x :: x in c.divergentPolicies <==> x in d.divergentPolicies;
  }

  // ---------------------------------------------------------------------
  // Sections

  datatype SectionType = Proposal | SiteDescription | PlanningHistory | PolicyContext | Consultation
    | Assessment | Design | Amenity | Heritage | Conclusion | Conditions | RefusalReasons
  {
    function Value(): string
    {
      match this
      case Proposal => "proposal"
      case SiteDescription => "site_description"
      case PlanningHistory => "planning_history"
      case PolicyContext => "policy_context"
      case Consultation => "consultation"
      case Assessment => "assessment"
      case Design => "design"
      case Amenity => "amenity"
      case Heritage => "heritage"
      case Conclusion => "conclusion"
      case Conditions => "conditions"
      case RefusalReasons => "refusal_reasons"
    }

    /** How many header patterns the section type has. */
    function PatternCount(): nat
    {
      match this
      case Design | Amenity | Heritage | Conditions | RefusalReasons => 1
      case _ => 2
    }
  }

  /** Section types in the order their patterns are tried. */
  const SectionTypes: seq<SectionType> := [
    Proposal, SiteDescription, PlanningHistory, PolicyContext, Consultation, Assessment,
    Design, Amenity, Heritage, Conclusion, Conditions, RefusalReasons]

  /** The `index`-th header pattern of a section type. */
  datatype PatternRef = PatternRef(section: SectionType, index: nat)

  function RefsOf(t: SectionType): seq<PatternRef>
  {
    if t.PatternCount() == 2 then [PatternRef(t, 0), PatternRef(t, 1)] else [PatternRef(t, 0)]
  }

  function RefsFrom(ts: seq<SectionType>): seq<PatternRef>
  {
    if ts == [] then [] else RefsFrom(ts[..|ts| - 1]) + RefsOf(ts[|ts| - 1])
  }

  /** Every header pattern, type by type. */
  const AllRefs: seq<PatternRef> := RefsFrom(SectionTypes)

  /** A header match: its offset in the searched text and the matched header. */
  datatype Match = Match(start: nat, title: string)

  /** The first case-insensitive match of a pattern in the text from a position on, relative to that position. */
  type Search = (PatternRef, nat) -> Option<Match>

  const MinSectionLength := 50
  const MaxSectionContent := 5000
  /** How far past a section's start the next header is looked for. */
  const HeaderGap := 100

  /**
   * Where the section of type `t` starting at `start` ends: the earliest
   * first match of another type's pattern at least 100 characters on, or
   * the end of the text.
   */
  function SectionEnd(size: nat, t: SectionType, start: nat, refs: seq<PatternRef>, search: Search): (e: nat)
    ensures e <= size
  {
    if refs == [] then size
    else
      var e := SectionEnd(size, t, start, refs[..|refs| - 1], search);
      var r := refs[|refs| - 1];
      if r.section == t then e
      else match search(r, start + HeaderGap)
        case None => e
        case Some(m) =>
          var potential := start + HeaderGap + m.start;
          if potential < e && potential > start then potential else e
  }

  /** The end search loop, over the other types' patterns. */
  method FindSectionEnd(size: nat, t: SectionType, start: nat, search: Search) returns (end: nat)
    ensures end == SectionEnd(size, t, start, AllRefs, search)
  {
    end := size;
    var i := 0;
    while i < |AllRefs|
      invariant 0 <= i <= |AllRefs|
      invariant end == SectionEnd(size, t, start, AllRefs[..i], search)
    {
      assert AllRefs[..i + 1][..i] == AllRefs[..i];
      var r := AllRefs[i];
      if r.section != t {
        var found := search(r, start + HeaderGap);
        if found.Some? {
          var potential := start + HeaderGap + found.value.start;
          if potential < end && potential > start {
            end := potential;
          }
        }
      }
      i := i + 1;
    }
    assert AllRefs[..|AllRefs|] == AllRefs;
  }

  /**
   * The end is the end of the text or lies at least `HeaderGap` past the
   * start, and no header of another type found past that gap begins after it.
   */
  lemma {:induction false} SectionEndSpec(size: nat, t: SectionType, start: nat, refs: seq<PatternRef>, search: Search)
    ensures var e := SectionEnd(size, t, start, refs, search);
      && (e == size || start + HeaderGap <= e)
      && forall k :: 0 <= k < |refs| && refs[k].section != t && search(refs[k], start + HeaderGap).Some? ==>
           e <= start + HeaderGap + search(refs[k], start + HeaderGap).value.start
  {
    if refs != [] {
      SectionEndSpec(size, t, start, refs[..|refs| - 1], search);
    }
  }

  /** A section as the analyser reports it (key points and per-section policies are not modelled). */
  datatype DocumentSection = DocumentSection(section: SectionType, title: string, content: string, startPosition: nat, endPosition: nat)

  /** The stripped text of a section, Python's `text[start:end].strip()` for `end <= |text|`. */
  function SectionText(text: string, start: nat, end: nat): string
    requires end <= |text|
  {
    Strip(if start < end then text[start..end] else [])
  }

  /** The section found by the first match of one pattern, if its text is long enough. */
  function Candidate(text: string, r: PatternRef, search: Search): Option<DocumentSection>
  {
    match search(r, 0)
    case None => None
    case Some(m) =>
      var end := SectionEnd(|text|, r.section, m.start, AllRefs, search);
      var content := SectionText(text, m.start, end);
      if |content| > MinSectionLength then Some(DocumentSection(r.section, m.title, Take(content, MaxSectionContent), m.start, end))
      else None
  }

  function Candidates(text: string, refs: seq<PatternRef>, search: Search): seq<DocumentSection>
  {
    if refs == [] then []
    else
      var rest := Candidates(text, refs[..|refs| - 1], search);
      match Candidate(text, refs[|refs| - 1], search)
      case None => rest
      case Some(s) => rest + [s]
  }

  function StartKey(s: DocumentSection): real
  {
    s.startPosition as real
  }

  /** The sections of a text: one per pattern at most, sorted by where they start. */
  method ExtractSections(text: string, search: Search) returns (sections: seq<DocumentSection>)
    ensures sections == StableSort.SortBy(Candidates(text, AllRefs, search), StartKey)
  {
    var found: seq<DocumentSection> := [];
    var i := 0;
    while i < |AllRefs|
      invariant 0 <= i <= |AllRefs|
      invariant found == Candidates(text, AllRefs[..i], search)
    {
      assert AllRefs[..i + 1][..i] == AllRefs[..i];
      var r := AllRefs[i];
      var first := search(r, 0);
      if first.Some? {
        var start := first.value.start;
        var end := FindSectionEnd(|text|, r.section, start, search);
        var content := SectionText(text, start, end);
        if |content| > MinSectionLength {
          found := found + [DocumentSection(r.section, first.value.title, Take(content, MaxSectionContent), start, end)];
        }
      }
      i := i + 1;
    }
    assert AllRefs[..|AllRefs|] == AllRefs;
    sections := StableSort.SortBy(found, StartKey);
  }

  /** The shape every reported section has. */
  predicate WellFormedSection(text: string, s: DocumentSection)
  {
    && s.startPosition < s.endPosition <= |text|
    && |SectionText(text, s.startPosition, s.endPosition)| > MinSectionLength
    && s.content == Take(SectionText(text, s.startPosition, s.endPosition), MaxSectionContent)
  }

  lemma CandidateWellFormed(text: string, r: PatternRef, search: Search)
    requires Candidate(text, r, search).Some?
    ensures var s := Candidate(text, r, search).value;
      WellFormedSection(text, s) && s.section == r.section && 50 < |s.content| <= 5000
  {
  }

  lemma {:induction false} CandidatesSpec(text: string, refs: seq<PatternRef>, search: Search, x: DocumentSection)
    ensures x in Candidates(text, refs, search) <==> exists k :: 0 <= k < |refs| && Candidate(text, refs[k], search) == Some(x)
  {
    if refs != [] {
      var init := refs[..|refs| - 1];
      CandidatesSpec(text, init, search, x);
      if exists k :: 0 <= k < |refs| && Candidate(text, refs[k], search) == Some(x) {
        var k :| 0 <= k < |refs| && Candidate(text, refs[k], search) == Some(x);
        if k < |init| {
          assert init[k] == refs[k];
        }
      }
      if x in Candidates(text, init, search) {
        var k :| 0 <= k < |init| && Candidate(text, init[k], search) == Some(x);
        assert refs[k] == init[k];
      }
    }
  }

  /**
   * The reported sections are sorted by start position, are exactly the
   * first matches of the patterns whose stripped text is over 50
   * characters, and each holds at most 5000 characters of that text.
   */
  lemma SectionsSpec(text: string, search: Search)
    ensures var sections := StableSort.SortBy(Candidates(text, AllRefs, search), StartKey);
      && StableSort.SortedBy(sections, StartKey)
      && multiset(sections) == multiset(Candidates(text, AllRefs, search))
      && (forall x :: x in sections <==> exists k :: 0 <= k < |AllRefs| && Candidate(text, AllRefs[k], search) == Some(x))
      && forall x :: x in sections ==> WellFormedSection(text, x) && 50 < |x.content| <= 5000
  {
    var all := Candidates(text, AllRefs, search);
    var sections := StableSort.SortBy(all, StartKey);
    StableSort.SortBySorted(all, StartKey);
    forall x
      ensures x in sections <==> exists k :: 0 <= k < |AllRefs| && Candidate(text, AllRefs[k], search) == Some(x)
    {
      assert x in sections <==> x in multiset(sections);
      CandidatesSpec(text, AllRefs, search, x);
    }
    forall x | x in sections
      ensures WellFormedSection(text, x) && 50 < |x.content| <= 5000
    {
      assert x in multiset(all);
      CandidatesSpec(text, AllRefs, search, x);
      var k :| 0 <= k < |AllRefs| && Candidate(text, AllRefs[k], search) == Some(x);
      CandidateWellFormed(text, AllRefs[k], search);
    }
  }
}
