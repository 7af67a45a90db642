/**
 * The Camden portal scraper's own logic: the date windows a scrape walks
 * through, the request counter of its rate limiter, and the first-match
 * classifiers that turn a scraped row into decision fields. The browser,
 * the HTTP client and the page parsing are not part of this model.
 */
module Scraper {
  import opened Common
  import opened PyStr
  import opened Planning

  // ---------------------------------------------------------------------
  // Scrape defaults and date windows (dates are day numbers)

  const TargetWards: seq<string> := [
    "Hampstead Town", "Belsize", "Frognal", "Swiss Cottage", "West Hampstead", "Fortune Green",
    "Kilburn", "Gospel Oak", "Kentish Town", "Camden Town", "Highgate", "Haverstock"]

  const DefaultOutcomes: seq<string> := ["Granted", "Refused"]

  /** `xs or default`: an absent or empty list falls back to the default. */
  function OrDefault(xs: Option<seq<string>>, default: seq<string>): (r: seq<string>)
    ensures xs.Some? && xs.value != [] ==> r == xs.value
    ensures xs.None? || xs.value == [] ==> r == default
  {
    if xs.Some? && xs.value != [] then xs.value else default
  }

  const WindowDays := 30

  /** An inclusive range of days searched in one go. */
  datatype Window = Window(first: int, last: int)

  /** The windows `scrape_decisions` visits from `s` while `s < end`. */
  function WindowsFrom(s: int, end: int): (ws: seq<Window>)
    decreases end - s
  {
    if s < end then [Window(s, Min(s + WindowDays, end))] + WindowsFrom(Min(s + WindowDays, end) + 1, end)
    else []
  }

  /** The loop of `scrape_decisions` that advances `current_start`. */
  method DateWindows(start: int, end: int) returns (ws: seq<Window>)
    ensures ws == WindowsFrom(start, end)
  {
    ws := [];
    var current := start;
    while current < end
      invariant ws + WindowsFrom(current, end) == WindowsFrom(start, end)
      decreases end - current
    {
      var last := Min(current + WindowDays, end);
      ws := ws + [Window(current, last)];
      current := last + 1;
    }
  }

  /** Each window spans at most 31 days and the next begins the day after it ends, starting at `s` and staying below `end + 1`. */
  lemma {:induction false} WindowsConsecutive(s: int, end: int)
    ensures var ws := WindowsFrom(s, end);
      && (s >= end <==> ws == [])
      && (ws != [] ==> ws[0].first == s && ws[|ws| - 1].last <= end)
      && (forall i :: 0 <= i < |ws| ==> s <= ws[i].first <= ws[i].last <= ws[i].first + WindowDays)
      && (forall i :: 0 <= i < |ws| - 1 ==> ws[i + 1].first == ws[i].last + 1)
    decreases end - s
  {
    if s < end {
      var next := Min(s + WindowDays, end) + 1;
      var ws, rest := WindowsFrom(s, end), WindowsFrom(next, end);
      WindowsConsecutive(next, end);
      assert ws == [Window(s, next - 1)] + rest;
      forall i | 1 <= i < |ws|
        ensures ws[i] == rest[i - 1]
      {
      }
      assert rest != [] ==> rest[0].first == next;
    }
  }

  predicate Covered(ws: seq<Window>, d: int)
  {
    exists i :: 0 <= i < |ws| && ws[i].first <= d <= ws[i].last
  }

  /** Every day from `s` up to the day before `end` is searched. */
  lemma {:induction false} WindowsCoverBeforeEnd(s: int, end: int, d: int)
    requires s <= d < end
    ensures Covered(WindowsFrom(s, end), d)
    decreases end - s
  {
    var ws := WindowsFrom(s, end);
    var next := Min(s + WindowDays, end) + 1;
    if d > Min(s + WindowDays, end) {
      WindowsCoverBeforeEnd(next, end, d);
      var i :| 0 <= i < |WindowsFrom(next, end)| && WindowsFrom(next, end)[i].first <= d <= WindowsFrom(next, end)[i].last;
      assert ws[i + 1] == WindowsFrom(next, end)[i];
    } else {
      assert ws[0].first <= d <= ws[0].last;
    }
  }

  /** The last day of the range is missed when the windows step exactly onto it: days 0 to 31 search only 0 to 30. */
  lemma LastDayMissed()
    ensures WindowsFrom(0, 31) == [Window(0, 30)]
    ensures !Covered(WindowsFrom(0, 31), 31)
    ensures WindowsFrom(5, 5) == []
  {
    assert WindowsFrom(31, 31) == [];
  }

  /** The windows the loop evidently means to visit: while `s <= end`. */
  function WindowsThrough(s: int, end: int): (ws: seq<Window>)
    decreases end - s + 1
  {
    if s <= end then [Window(s, Min(s + WindowDays, end))] + WindowsThrough(Min(s + WindowDays, end) + 1, end)
    else []
  }

  /** With `<=` every day of the range, the last included, is searched. */
  lemma {:induction false} WindowsThroughCover(s: int, end: int, d: int)
    requires s <= d <= end
    ensures Covered(WindowsThrough(s, end), d)
    decreases end - s + 1
  {
    var ws := WindowsThrough(s, end);
    var m := Min(s + WindowDays, end);
    var rest := WindowsThrough(m + 1, end);
    if d > m {
      WindowsThroughCover(m + 1, end, d);
      var i :| 0 <= i < |rest| && rest[i].first <= d <= rest[i].last;
      assert ws[i + 1] == rest[i];
    } else {
      assert ws[0].first <= d <= ws[0].last;
    }
  }

  /** The windows do not overlap, so no day is searched twice. */
  lemma {:induction false} WindowsThroughDisjoint(s: int, end: int)
    ensures forall i, j :: 0 <= i < j < |WindowsThrough(s, end)| ==> WindowsThrough(s, end)[i].last < WindowsThrough(s, end)[j].first
    decreases end - s + 1
  {
    if s <= end {
      var ws := WindowsThrough(s, end);
      var m := Min(s + WindowDays, end);
      var rest := WindowsThrough(m + 1, end);
      WindowsThroughDisjoint(m + 1, end);
      WindowsThroughStart(m + 1, end);
      forall i, j | 0 <= i < j < |ws| ensures ws[i].last < ws[j].first
      {
        assert ws[j] == rest[j - 1];
        if i > 0 {
          assert ws[i] == rest[i - 1];
        }
      }
    }
  }

  lemma {:induction false} WindowsThroughStart(s: int, end: int)
    ensures forall i :: 0 <= i < |WindowsThrough(s, end)| ==> s <= WindowsThrough(s, end)[i].first <= WindowsThrough(s, end)[i].last
    decreases end - s + 1
  {
    if s <= end {
      WindowsThroughStart(Min(s + WindowDays, end) + 1, end);
    }
  }

  /** One search of the portal: a window, a ward and an outcome. */
  datatype PeriodQuery = PeriodQuery(window: Window, ward: string, outcome: string)

  /** The searches in the order the nested loops make them: window, then ward, then outcome. */
  function PeriodQueries(ws: seq<Window>, wards: seq<string>, outcomes: seq<string>): (qs: seq<PeriodQuery>)
    ensures |qs| == |ws| * (|wards| * |outcomes|)
  {
    if ws == [] then []
    else
      var rest := PeriodQueries(ws[1..], wards, outcomes);
      MulStep(|ws|, |wards| * |outcomes|);
      WardQueries(ws[0], wards, outcomes) + rest
  }

  function WardQueries(w: Window, wards: seq<string>, outcomes: seq<string>): (qs: seq<PeriodQuery>)
    ensures |qs| == |wards| * |outcomes|
    ensures forall q :: q in qs ==> q.window == w && q.ward in wards && q.outcome in outcomes
  {
    if wards == [] then []
    else
      var rest := WardQueries(w, wards[1..], outcomes);
      MulStep(|wards|, |outcomes|);
      seq(|outcomes|, k requires 0 <= k < |outcomes| => PeriodQuery(w, wards[0], outcomes[k])) + rest
  }

  lemma MulStep(a: nat, n: nat)
    requires a > 0
    ensures a * n == n + (a - 1) * n
  {
  }

  /** `scrape_decisions`' searches: the defaults fill in absent or empty ward and outcome lists. */
  function ScrapeQueries(start: int, end: int, wards: Option<seq<string>>, outcomes: Option<seq<string>>): seq<PeriodQuery>
  {
    PeriodQueries(WindowsFrom(start, end), OrDefault(wards, TargetWards), OrDefault(outcomes, DefaultOutcomes))
  }

  /** Without ward or outcome lists a scrape searches every target ward for granted and refused decisions. */
  lemma ScrapeDefaults(start: int, end: int)
    ensures |ScrapeQueries(start, end, None, None)| == |WindowsFrom(start, end)| * 24
    ensures start >= end ==> ScrapeQueries(start, end, None, Some([])) == []
  {
    WindowsConsecutive(start, end);
  }

  // ---------------------------------------------------------------------
  // Rate limiting (times in seconds)

  const RequestDelay: real := 2.0

  /** The pause before a request made at `now`: whatever remains of the delay since the previous one. */
  function RequiredPause(last: Option<real>, now: real): (p: real)
    ensures p >= 0.0
    ensures last.Some? ==> now + p >= last.value + RequestDelay
    ensures last.None? ==> p == 0.0
  {
    if last.Some? && now - last.value < RequestDelay then RequestDelay - (now - last.value) else 0.0
  }

  /** The scraper's request counter and the time of its last request. */
  class RateLimiter {
    var requestCount: nat
    var lastRequestTime: Option<real>

    constructor()
      ensures requestCount == 0 && lastRequestTime == None
    {
      requestCount := 0;
      lastRequestTime := None;
    }

    /** `_rate_limit` at time `now`: sleeps the returned pause, then counts the request and records the time. */
    method RateLimit(now: real) returns (pause: real)
      modifies this
      ensures pause == RequiredPause(old(lastRequestTime), now)
      ensures requestCount == old(requestCount) + 1
      ensures lastRequestTime == Some(now + pause)
    {
      pause := 0.0;
      if lastRequestTime.Some? {
        var elapsed := now - lastRequestTime.value;
        if elapsed < RequestDelay {
          pause := RequestDelay - elapsed;
        }
      }
      lastRequestTime := Some(now + pause);
      requestCount := requestCount + 1;
    }
  }

  /** Recorded request times are at least the delay apart, and a call at least the delay after the last one does not wait. */
  lemma RequestsSpaced(last: real, now: real)
    ensures now + RequiredPause(Some(last), now) - last >= RequestDelay
    ensures now - last >= RequestDelay ==> RequiredPause(Some(last), now) == 0.0
  {
  }

  // ---------------------------------------------------------------------
  // First-match classifiers

  /** A rule fires when any of its keywords occurs in the text. */
  datatype Rule<T> = Rule(keywords: seq<string>, value: T)

  /** The index of the first rule that fires. */
  function FirstHit<T>(text: string, rules: seq<Rule<T>>): (r: Option<nat>)
    ensures r.Some? ==> r.value < |rules| && ContainsAny(text, rules[r.value].keywords)
    ensures r.Some? ==> forall j :: 0 <= j < r.value ==> !ContainsAny(text, rules[j].keywords)
    ensures r.None? ==> forall j :: 0 <= j < |rules| ==> !ContainsAny(text, rules[j].keywords)
  {
    if rules == [] then None
    else if ContainsAny(text, rules[0].keywords) then Some(0)
    else match FirstHit(text, rules[1..])
      case None => None
      case Some(k) => Some(k + 1)
  }

  /** The value of the first rule that fires on the lowercased text, else the default. */
  function Classify<T>(text: string, rules: seq<Rule<T>>, default: T): T
  {
    match FirstHit(Lower(text), rules)
    case None => default
    case Some(k) => rules[k].value
  }

  /** `sub` occurs in `s` at position `i`. */
  predicate OccursAt(s: string, sub: string, i: int)
  {
    0 <= i && i + |sub| <= |s| && s[i..i + |sub|] == sub
  }

  lemma {:induction false} OccursContains(s: string, sub: string, i: int)
    requires OccursAt(s, sub, i)
    ensures Contains(s, sub)
    decreases i
  {
    if i > 0 {
      assert s[1..][i - 1..i - 1 + |sub|] == s[i..i + |sub|];
      OccursContains(s[1..], sub, i - 1);
    }
  }

  lemma {:induction false} ContainsOccurs(s: string, sub: string)
    requires Contains(s, sub)
    ensures exists i :: OccursAt(s, sub, i)
    decreases |s|
  {
    if StartsWith(s, sub) {
      assert OccursAt(s, sub, 0);
    } else {
      ContainsOccurs(s[1..], sub);
      var i :| OccursAt(s[1..], sub, i);
      assert s[i + 1..i + 1 + |sub|] == s[1..][i..i + |sub|];
      assert OccursAt(s, sub, i + 1);
    }
  }

  /** A text containing `big` contains everything `big` contains. */
  lemma ContainsTrans(s: string, big: string, small: string)
    requires Contains(s, big) && Contains(big, small)
    ensures Contains(s, small)
  {
    ContainsOccurs(s, big);
    ContainsOccurs(big, small);
    var i :| OccursAt(s, big, i);
    var j :| OccursAt(big, small, j);
    forall k | 0 <= k < |small| ensures s[i + j..i + j + |small|][k] == small[k]
    {
      assert small[k] == big[j + k] == s[i..i + |big|][j + k];
    }
    assert s[i + j..i + j + |small|] == small;
    OccursContains(s, small, i + j);
  }

  /** A rule whose every keyword contains the first keyword of an earlier rule never fires first. */
  lemma Shadowed<T>(text: string, rules: seq<Rule<T>>, i: nat, j: nat)
    requires i < j < |rules| && rules[i].keywords != []
    requires forall k :: k in rules[j].keywords ==> Contains(k, rules[i].keywords[0])
    ensures FirstHit(text, rules) != Some(j)
  {
    if FirstHit(text, rules) == Some(j) {
      var k :| k in rules[j].keywords && Contains(text, k);
      ContainsTrans(text, k, rules[i].keywords[0]);
    }
  }

  // Outcome

  const OutcomeRules: seq<Rule<Outcome>> := [
    Rule(["grant", "approve"], Granted),
    Rule(["refuse", "reject"], Refused),
    Rule(["withdraw"], Withdrawn)]

  /** The outcome `_parse_outcome` picks. */
  function OutcomeOf(text: string): Outcome
  {
    Classify(text, OutcomeRules, Pending)
  }

  /**
   * `_parse_outcome`: "Granted" exactly when the lower-cased text mentions
   * granting or approval, and otherwise one of "Refused", "Withdrawn" and
   * "Pending".
   */
  function ParseOutcome(text: string): (r: string)
    ensures r == OutcomeOf(text).Value()
    ensures r in {"Granted", "Refused", "Withdrawn", "Pending"}
    ensures r == "Granted" <==> ContainsAny(Lower(text), ["grant", "approve"])
  {
    ParseOutcomeSpec(text);
    OutcomeOf(text).Value()
  }

  /** Granted on grant/approve; else Refused on refuse/reject; else Withdrawn on withdraw; else Pending; never an appeal outcome. */
  lemma ParseOutcomeSpec(text: string)
    ensures var t := Lower(text);
      && (OutcomeOf(text) == Granted <==> ContainsAny(t, ["grant", "approve"]))
      && (OutcomeOf(text) == Refused <==> !ContainsAny(t, ["grant", "approve"]) && ContainsAny(t, ["refuse", "reject"]))
      && (OutcomeOf(text) == Withdrawn <==>
            !ContainsAny(t, ["grant", "approve"]) && !ContainsAny(t, ["refuse", "reject"]) && ContainsAny(t, ["withdraw"]))
      && OutcomeOf(text) in {Granted, Refused, Withdrawn, Pending}
  {
    var t := Lower(text);
    assert OutcomeRules[0].keywords == ["grant", "approve"];
    assert OutcomeRules[1].keywords == ["refuse", "reject"];
    assert OutcomeRules[2].keywords == ["withdraw"];
  }

  // Ward

  const WardRules: seq<Rule<string>> := [
    Rule(["hampstead"], "Hampstead Town"),
    Rule(["belsize"], "Belsize"),
    Rule(["frognal"], "Frognal"),
    Rule(["swiss cottage"], "Swiss Cottage"),
    Rule(["west hampstead"], "West Hampstead"),
    Rule(["fortune green"], "Fortune Green"),
    Rule(["kilburn"], "Kilburn"),
    Rule(["gospel oak"], "Gospel Oak"),
    Rule(["kentish town"], "Kentish Town"),
    Rule(["camden town"], "Camden Town"),
    Rule(["highgate"], "Highgate")]

  /** `_extract_ward_from_address` */
  function ExtractWard(address: string): string
  {
    Classify(address, WardRules, "Unknown")
  }

  lemma WestHampsteadHasHampstead()
    ensures Contains("west hampstead", "hampstead")
  {
    assert OccursAt("west hampstead", "hampstead", 5);
    OccursContains("west hampstead", "hampstead", 5);
  }

  /** As written, no address is ever placed in West Hampstead: its indicator contains the earlier "hampstead". */
  lemma WestHampsteadUnreachable(address: string)
    ensures ExtractWard(address) != "West Hampstead"
  {
    WestHampsteadHasHampstead();
    assert WardRules[4].keywords == ["west hampstead"] && WardRules[0].keywords[0] == "hampstead";
    Shadowed(Lower(address), WardRules, 0, 4);
    WestHampsteadOnlyRule();
  }

  /** Only the fifth ward rule yields West Hampstead. */
  lemma WestHampsteadOnlyRule()
    ensures forall k :: 0 <= k < |WardRules| && k != 4 ==> WardRules[k].value != "West Hampstead"
  {
    var vs := seq(|WardRules|, k requires 0 <= k < |WardRules| => WardRules[k].value);
    assert vs == ["Hampstead Town", "Belsize", "Frognal", "Swiss Cottage", "West Hampstead", "Fortune Green",
                  "Kilburn", "Gospel Oak", "Kentish Town", "Camden Town", "Highgate"];
    forall k | 0 <= k < |WardRules| && k != 4 ensures WardRules[k].value != "West Hampstead"
    {
      assert vs[k] == WardRules[k].value;
      assert |vs[k]| != 14 || vs[k][0] != 'W';
    }
  }

  /** The ward indicators with "west hampstead" checked before "hampstead". */
  const WardRulesSpecificFirst: seq<Rule<string>> := [WardRules[4]] + WardRules[..4] + WardRules[5..]

  function ExtractWardSpecificFirst(address: string): string
  {
    Classify(address, WardRulesSpecificFirst, "Unknown")
  }

  /** With the specific indicator first, West Hampstead addresses get their ward and the other wards keep theirs. */
  lemma ExtractWardSpecificFirstSpec(address: string)
    ensures Contains(Lower(address), "west hampstead") ==> ExtractWardSpecificFirst(address) == "West Hampstead"
    ensures !Contains(Lower(address), "west hampstead") ==> ExtractWardSpecificFirst(address) == ExtractWard(address)
  {
    var t := Lower(address);
    if !Contains(t, "west hampstead") {
      assert WardRules[4].keywords == ["west hampstead"];
      FirstHitSkip(t, WardRulesSpecificFirst, WardRules, 4);
    } else {
      assert ContainsAny(t, WardRulesSpecificFirst[0].keywords);
    }
  }

  /** Moving a rule that does not fire to the front leaves the rule that fires first unchanged. */
  lemma FirstHitSkip<T>(t: string, moved: seq<Rule<T>>, orig: seq<Rule<T>>, m: nat)
    requires m < |orig| && moved == [orig[m]] + orig[..m] + orig[m + 1..]
    requires !ContainsAny(t, orig[m].keywords)
    ensures FirstHit(t, moved).None? <==> FirstHit(t, orig).None?
    ensures FirstHit(t, orig).Some? ==> moved[FirstHit(t, moved).value] == orig[FirstHit(t, orig).value]
  {
    if FirstHit(t, orig).Some? {
      FirstHitSkipHit(t, moved, orig, m, FirstHit(t, orig).value);
    } else {
      FirstHitSkipNone(t, moved, orig, m);
    }
  }

  lemma FirstHitSkipHit<T>(t: string, moved: seq<Rule<T>>, orig: seq<Rule<T>>, m: nat, k: nat)
    requires m < |orig| && moved == [orig[m]] + orig[..m] + orig[m + 1..]
    requires !ContainsAny(t, orig[m].keywords)
    requires FirstHit(t, orig) == Some(k)
    ensures FirstHit(t, moved) == Some(if k < m then k + 1 else k)
    ensures moved[if k < m then k + 1 else k] == orig[k]
  {
    var km := if k < m then k + 1 else k;
    assert km < |moved| && moved[km] == orig[k] by {
      MovedAt(moved, orig, m, km);
    }
    assert forall j :: 0 <= j < km ==> !ContainsAny(t, moved[j].keywords) by {
      forall j | 0 <= j < km ensures !ContainsAny(t, moved[j].keywords)
      {
        MovedAt(moved, orig, m, j);
      }
    }
    FirstHitIs(t, moved, km);
  }

  lemma FirstHitSkipNone<T>(t: string, moved: seq<Rule<T>>, orig: seq<Rule<T>>, m: nat)
    requires m < |orig| && moved == [orig[m]] + orig[..m] + orig[m + 1..]
    requires FirstHit(t, orig).None?
    ensures FirstHit(t, moved).None?
  {
    forall j | 0 <= j < |moved| ensures !ContainsAny(t, moved[j].keywords)
    {
      MovedAt(moved, orig, m, j);
    }
    FirstHitNone(t, moved);
  }

  /** Where each element lands when the one at `m` is moved to the front. */
  lemma MovedAt<X>(moved: seq<X>, orig: seq<X>, m: nat, j: nat)
    requires m < |orig| && moved == [orig[m]] + orig[..m] + orig[m + 1..]
    requires j < |moved|
    ensures |moved| == |orig|
    ensures moved[j] == if j == 0 then orig[m] else if j - 1 < m then orig[j - 1] else orig[j]
  {
  }

  lemma FirstHitIs<T>(t: string, rules: seq<Rule<T>>, k: nat)
    requires k < |rules| && ContainsAny(t, rules[k].keywords)
    requires forall j :: 0 <= j < k ==> !ContainsAny(t, rules[j].keywords)
    ensures FirstHit(t, rules) == Some(k)
  {
  }

  lemma FirstHitNone<T>(t: string, rules: seq<Rule<T>>)
    requires forall j :: 0 <= j < |rules| ==> !ContainsAny(t, rules[j].keywords)
    ensures FirstHit(t, rules) == None
  {
  }

  // Application type

  const ApplicationTypeRules: seq<Rule<string>> := [
    Rule(["full planning"], "Full Planning"),
    Rule(["householder"], "Householder"),
    Rule(["listed building"], "Listed Building Consent"),
    Rule(["conservation"], "Conservation Area Consent"),
    Rule(["prior approval"], "Prior Approval"),
    Rule(["lawful development", "certificate"], "Certificate of Lawfulness"),
    Rule(["tree"], "Tree Works"),
    Rule(["advertisement"], "Advertisement Consent")]

  /** `_determine_application_type` */
  function DetermineApplicationType(description: string): string
  {
    Classify(description, ApplicationTypeRules, "Planning Permission")
  }

  // Development type

  const DevelopmentRules: seq<Rule<DevelopmentType>> := [
    Rule(["rear extension", "back extension"], RearExtension),
    Rule(["side extension", "side return"], SideExtension),
    Rule(["loft", "attic", "roof space"], LoftConversion),
    Rule(["dormer", "roof light", "rooflight"], DormerWindow),
    Rule(["basement", "subterranean", "excavat", "cellar"], Basement),
    Rule(["roof extension", "roof terrace", "mansard"], RoofExtension),
    Rule(["change of use", "convert from", "convert to"], ChangeOfUse),
    Rule(["new build", "new dwelling", "erection of"], NewBuild),
    Rule(["demolit"], Demolition),
    Rule(["alter", "modif", "internal works"], Alterations),
    Rule(["listed building"], ListedBuilding),
    Rule(["tree", "tpo"], TreeWorks),
    Rule(["advert", "sign", "hoarding"], Advertisement)]

  /** `classify_development_type`: always a type, OTHER when no rule fires. */
  function ClassifyDevelopmentType(description: string): DevelopmentType
  {
    Classify(description, DevelopmentRules, Other)
  }

  // Conservation area

  const ConservationRules: seq<Rule<ConservationAreaStatus>> := [
    Rule(["hampstead"], Hampstead),
    Rule(["belsize"], Belsize),
    Rule(["south hampstead"], SouthHampstead),
    Rule(["frognal"], RedingtonFrognal),
    Rule(["redington"], RedingtonFrognal),
    Rule(["netherhall"], FitzjohnsNetherhall),
    Rule(["fitzjohn"], FitzjohnsNetherhall),
    Rule(["swiss cottage"], SwissCottage),
    Rule(["primrose hill"], PrimroseHill),
    Rule(["chalk farm"], ChalkFarm),
    Rule(["camden town"], CamdenTown),
    Rule(["kentish town"], KentishTown),
    Rule(["bloomsbury"], Bloomsbury)]

  /** `identify_conservation_area`: the postcode argument is not consulted. */
  function IdentifyConservationArea(address: string, postcode: Option<string>): ConservationAreaStatus
  {
    Classify(address, ConservationRules, NoArea)
  }

  /** As written, no address is ever placed in the South Hampstead area: its indicator contains "hampstead". */
  lemma SouthHampsteadUnreachable(address: string, postcode: Option<string>)
    ensures IdentifyConservationArea(address, postcode) != SouthHampstead
  {
    assert OccursAt("south hampstead", "hampstead", 6);
    OccursContains("south hampstead", "hampstead", 6);
    assert ConservationRules[2].keywords == ["south hampstead"] && ConservationRules[0].keywords[0] == "hampstead";
    Shadowed(Lower(address), ConservationRules, 0, 2);
    var h := FirstHit(Lower(address), ConservationRules);
    if h.Some? && h.value != 2 {
      assert ConservationRules[h.value].value != SouthHampstead;
    }
  }

  /** The conservation-area indicators with "south hampstead" checked before "hampstead". */
  const ConservationRulesSpecificFirst: seq<Rule<ConservationAreaStatus>> :=
    [ConservationRules[2]] + ConservationRules[..2] + ConservationRules[3..]

  function IdentifyConservationAreaSpecificFirst(address: string, postcode: Option<string>): ConservationAreaStatus
  {
    Classify(address, ConservationRulesSpecificFirst, NoArea)
  }

  /** With the specific indicator first, South Hampstead addresses get their area and all others keep theirs. */
  lemma IdentifyConservationAreaSpecificFirstSpec(address: string, postcode: Option<string>)
    ensures Contains(Lower(address), "south hampstead") ==>
              IdentifyConservationAreaSpecificFirst(address, postcode) == SouthHampstead
    ensures !Contains(Lower(address), "south hampstead") ==>
              IdentifyConservationAreaSpecificFirst(address, postcode) == IdentifyConservationArea(address, postcode)
  {
    var t := Lower(address);
    if !Contains(t, "south hampstead") {
      assert ConservationRules[2].keywords == ["south hampstead"];
      FirstHitSkip(t, ConservationRulesSpecificFirst, ConservationRules, 2);
    } else {
      assert ContainsAny(t, ConservationRulesSpecificFirst[0].keywords);
    }
  }

  /** Every classifier falls back to its default exactly when none of its rules fires. */
  lemma ClassifyDefault<T>(text: string, rules: seq<Rule<T>>, default: T)
    requires forall j :: 0 <= j < |rules| ==> rules[j].value != default
    ensures Classify(text, rules, default) == default <==> forall j :: 0 <= j < |rules| ==> !ContainsAny(Lower(text), rules[j].keywords)
  {
  }

  /** Otherwise a classifier answers with the value of the first rule, in table order, that fires. */
  lemma ClassifyFirstMatch<T>(text: string, rules: seq<Rule<T>>, default: T, k: nat)
    requires k < |rules| && ContainsAny(Lower(text), rules[k].keywords)
    requires forall j :: 0 <= j < k ==> !ContainsAny(Lower(text), rules[j].keywords)
    ensures Classify(text, rules, default) == rules[k].value
  {
    FirstHitIs(Lower(text), rules, k);
  }

  // ---------------------------------------------------------------------
  // Postcodes:`[A-Z]{1,2}\d[A-Z\d]?\s*\d[A-Z]{2}` searched in the upper-cased address

  /** How one match divides: one or two area letters, the district digit, zero or one further character, the whitespace run, then the inward code of three. */
  datatype PostcodeShape = PostcodeShape(letters: nat, extra: nat, spaces: nat)
  {
    function Length(): nat { letters + 1 + extra + spaces + 3 }
  }

  /** `[A-Z\d]?\s*\d[A-Z]{2}` matches at `p` with `extra` optional characters and `spaces` whitespace characters. */
  predicate RestAt(s: string, p: nat, extra: nat, spaces: nat)
  {
    var q := p + extra;
    var e := q + spaces;
    && extra <= 1 && e + 3 <= |s|
    && (forall k :: p <= k < q ==> IsAsciiUpper(s[k]) || IsDigit(s[k]))
    && (forall k :: q <= k < e ==> IsSpace(s[k]))
    && IsDigit(s[e]) && IsAsciiUpper(s[e + 1]) && IsAsciiUpper(s[e + 2])
  }

  /** The pattern matches `s` at `i` in this shape. */
  predicate IsShapeAt(s: string, i: nat, sh: PostcodeShape)
  {
    && 1 <= sh.letters <= 2 && i + sh.letters < |s|
    && (forall k :: i <= k < i + sh.letters ==> IsAsciiUpper(s[k]))
    && IsDigit(s[i + sh.letters])
    && RestAt(s, i + sh.letters + 1, sh.extra, sh.spaces)
  }

  /** The length of the whitespace run starting at `j`. */
  function SpaceRun(s: string, j: nat): (n: nat)
    requires j <= |s|
    ensures j + n <= |s|
    ensures forall k :: j <= k < j + n ==> IsSpace(s[k])
    ensures j + n == |s| || !IsSpace(s[j + n])
    decreases |s| - j
  {
    if j < |s| && IsSpace(s[j]) then 1 + SpaceRun(s, j + 1) else 0
  }

  /** `\s*\d[A-Z]{2}` at `j`, the star having taken `n` characters and giving them back one at a time; the result is how many it keeps. */
  function InwardFrom(s: string, j: nat, n: nat): (r: Option<nat>)
    requires j + n <= |s|
    ensures r.Some? ==> r.value <= n
    ensures r.Some? ==> var e := j + r.value; e + 3 <= |s| && IsDigit(s[e]) && IsAsciiUpper(s[e + 1]) && IsAsciiUpper(s[e + 2])
    decreases n
  {
    var e := j + n;
    if e + 3 <= |s| && IsDigit(s[e]) && IsAsciiUpper(s[e + 1]) && IsAsciiUpper(s[e + 2]) then Some(n)
    else if n == 0 then None
    else InwardFrom(s, j, n - 1)
  }

  /** The greedy star starts from the whole whitespace run. */
  function InwardAt(s: string, j: nat): (r: Option<nat>)
    requires j <= |s|
    ensures r.Some? ==> RestAt(s, j, 0, r.value)
  {
    InwardFrom(s, j, SpaceRun(s, j))
  }

  /** Whitespace is no digit, so giving back part of the run never helps: the inward code matches after the whole run or not at all. */
  lemma InwardAtComplete(s: string, j: nat, m: nat)
    requires RestAt(s, j, 0, m)
    ensures InwardAt(s, j) == Some(m)
  {
  }

  /** After the district digit the optional `[A-Z\d]` is tried present first, then absent; the result is (further characters, spaces). */
  function AfterDigit(s: string, p: nat): (r: Option<(nat, nat)>)
    requires p <= |s|
    ensures r.Some? ==> RestAt(s, p, r.value.0, r.value.1)
  {
    var withExtra := if p < |s| && (IsAsciiUpper(s[p]) || IsDigit(s[p])) then InwardAt(s, p + 1) else None;
    if withExtra.Some? then Some((1, withExtra.value))
    else match InwardAt(s, p)
      case Some(n) => Some((0, n))
      case None => None
  }

  /** `\d[A-Z\d]?\s*\d[A-Z]{2}` after `letters` area letters at `i`. */
  function AfterLetters(s: string, i: nat, letters: nat): (r: Option<PostcodeShape>)
    requires i + letters <= |s|
    ensures r.Some? ==> r.value.letters == letters && i + letters < |s| && IsDigit(s[i + letters])
                        && RestAt(s, i + letters + 1, r.value.extra, r.value.spaces)
  {
    var q := i + letters;
    if q < |s| && IsDigit(s[q]) then
      match AfterDigit(s, q + 1)
      case Some((x, n)) => Some(PostcodeShape(letters, x, n))
      case None => None
    else None
  }

  /** The regex engine at start `i`: `[A-Z]{1,2}` takes two letters first, then one. */
  function MatchAt(s: string, i: nat): (r: Option<PostcodeShape>)
    requires i <= |s|
    ensures r.Some? ==> IsShapeAt(s, i, r.value)
  {
    var two := if i + 2 <= |s| && IsAsciiUpper(s[i]) && IsAsciiUpper(s[i + 1]) then AfterLetters(s, i, 2) else None;
    if two.Some? then two
    else if i < |s| && IsAsciiUpper(s[i]) then AfterLetters(s, i, 1)
    else None
  }

  /** Whenever the rest of the pattern matches after the district digit, the engine finds it there. */
  lemma AfterDigitComplete(s: string, p: nat, extra: nat, spaces: nat)
    requires RestAt(s, p, extra, spaces)
    ensures AfterDigit(s, p).Some?
  {
    var q := p + extra;
    assert RestAt(s, q, 0, spaces);
    InwardAtComplete(s, q, spaces);
    if extra == 1 {
      assert IsAsciiUpper(s[p]) || IsDigit(s[p]);
    }
  }

  lemma AfterLettersComplete(s: string, i: nat, letters: nat, extra: nat, spaces: nat)
    requires i + letters < |s| && IsDigit(s[i + letters])
    requires RestAt(s, i + letters + 1, extra, spaces)
    ensures AfterLetters(s, i, letters).Some?
  {
    AfterDigitComplete(s, i + letters + 1, extra, spaces);
  }

  /** The engine finds a match at `i` whenever the pattern matches there in any shape. */
  lemma MatchAtComplete(s: string, i: nat, sh: PostcodeShape)
    requires IsShapeAt(s, i, sh)
    ensures MatchAt(s, i).Some?
  {
    AfterLettersComplete(s, i, sh.letters, sh.extra, sh.spaces);
    assert IsAsciiUpper(s[i]);
    if sh.letters == 2 {
      assert IsAsciiUpper(s[i + 1]);
    }
  }

  /** `re.search`: the leftmost start at or after `i` where the engine matches. */
  function SearchFrom(s: string, i: nat): (r: Option<(nat, PostcodeShape)>)
    requires i <= |s|
    ensures r.Some? ==> i <= r.value.0 <= |s| && MatchAt(s, r.value.0) == Some(r.value.1)
    ensures r.Some? ==> forall k :: i <= k < r.value.0 ==> MatchAt(s, k).None?
    ensures r.None? ==> forall k :: i <= k <= |s| ==> MatchAt(s, k).None?
    decreases |s| - i
  {
    var m := MatchAt(s, i);
    if m.Some? then Some((i, m.value))
    else if i == |s| then None
    else
      var r := SearchFrom(s, i + 1);
      assert r.Some? ==> forall k :: i <= k < r.value.0 ==> MatchAt(s, k).None?;
      r
  }

  /** The matched text with its spaces removed and one space put before the last three characters, when at least five remain. */
  function FormatMatch(m: string): Option<string>
  {
    var c := Replace(m, " ", "");
    if |c| >= 5 then Some(c[..|c| - 3] + (" " + c[|c| - 3..])) else None
  }

  /** The text of the first match, if any. */
  function MatchText(s: string): Option<string>
  {
    var r := SearchFrom(s, 0);
    if r.None? then None else Some(s[r.value.0..r.value.0 + r.value.1.Length()])
  }

  /** The first match in an upper-cased text, formatted. */
  function PostcodeIn(s: string): Option<string>
  {
    var t := MatchText(s);
    if t.None? then None else FormatMatch(t.value)
  }

  /** `_extract_postcode` */
  function ExtractPostcode(address: string): Option<string>
  {
    PostcodeIn(Upper(address))
  }

  /** The form `validate_postcode` gives a full postcode: an area letter, then the rest of the outward code, a space, a digit and two letters. */
  predicate PostcodeForm(p: string)
  {
    && |p| >= 6 && IsAsciiUpper(p[0]) && p[|p| - 4] == ' '
    && IsDigit(p[|p| - 3]) && IsAsciiUpper(p[|p| - 2]) && IsAsciiUpper(p[|p| - 1])
  }

  /** With its spaces removed, a match keeps everything before the whitespace run and the three inward characters. */
  lemma CompactMatch(s: string, i: nat, sh: PostcodeShape)
    requires IsShapeAt(s, i, sh)
    ensures var q := i + sh.letters + 1 + sh.extra;
            var e := q + sh.spaces;
            Replace(s[i..e + 3], " ", "") == s[i..q] + Replace(s[q..e], " ", "") + s[e..e + 3]
  {
    var q := i + sh.letters + 1 + sh.extra;
    var e := q + sh.spaces;
    var a, b, c := s[i..q], s[q..e], s[e..e + 3];
    assert s[i..e + 3] == a + b + c;
    ReplaceCharConcat(a + b, c, ' ');
    ReplaceCharConcat(a, b, ' ');
    forall k | 0 <= k < |a| ensures a[k] != ' '
    {
      assert a[k] == s[i + k];
    }
    ReplaceCharAbsent(a, ' ');
    ReplaceCharAbsent(c, ' ');
  }

  /** The length guard always passes: a match holds at least five characters that are not spaces. */
  lemma PostcodeGuardPasses(s: string, i: nat, sh: PostcodeShape)
    requires IsShapeAt(s, i, sh)
    ensures FormatMatch(s[i..i + sh.Length()]).Some?
  {
    CompactMatch(s, i, sh);
  }

  /** The search fails exactly when the pattern matches nowhere. */
  lemma SearchFindsAny(s: string)
    ensures SearchFrom(s, 0).None? <==> forall i: nat, sh :: i <= |s| ==> !IsShapeAt(s, i, sh)
  {
    if SearchFrom(s, 0).None? {
      forall i: nat, sh | i <= |s| ensures !IsShapeAt(s, i, sh)
      {
        if IsShapeAt(s, i, sh) {
          MatchAtComplete(s, i, sh);
          assert false;
        }
      }
    } else {
      var (i, sh) := SearchFrom(s, 0).value;
      assert IsShapeAt(s, i, sh);
    }
  }

  /** A postcode is found in `s` exactly when the pattern matches somewhere in it. */
  lemma PostcodeInFound(s: string)
    ensures PostcodeIn(s).None? <==> forall i: nat, sh :: i <= |s| ==> !IsShapeAt(s, i, sh)
  {
    PostcodeInWhenMatched(s);
    MatchTextNone(s);
  }

  /** The length guard never rejects a match, so a postcode is found exactly when there is matched text. */
  lemma PostcodeInWhenMatched(s: string)
    ensures PostcodeIn(s).None? <==> MatchText(s).None?
  {
    var r := SearchFrom(s, 0);
    if r.Some? {
      var i, sh := r.value.0, r.value.1;
      assert MatchText(s).Some? by {
        MatchTextAt(s, i, sh);
      }
      assert PostcodeIn(s).Some? by {
        PostcodeInAt(s, i, sh);
        PostcodeGuardPasses(s, i, sh);
      }
    } else {
      assert MatchText(s).None?;
    }
  }

  /** A postcode is extracted exactly when the pattern matches somewhere in the upper-cased address. */
  lemma ExtractPostcodeFound(address: string)
    ensures ExtractPostcode(address).None? <==> forall i: nat, sh :: i <= |address| ==> !IsShapeAt(Upper(address), i, sh)
  {
    PostcodeInFound(Upper(address));
  }

  /** On an upper-cased text, formatting a match gives what `validate_postcode` gives for it. */
  lemma FormatMatchValidated(s: string, i: nat, sh: PostcodeShape)
    requires IsShapeAt(s, i, sh)
    requires forall k :: 0 <= k < |s| ==> UpperFixed(s[k])
    ensures var m := s[i..i + sh.Length()]; FormatMatch(m) == ValidatePostcode(Some(m))
  {
    var m := s[i..i + sh.Length()];
    assert Upper(m) == m by {
      assert forall k :: 0 <= k < |m| ==> m[k] == s[i + k];
    }
    assert m[0] == s[i] && m[|m| - 1] == s[i + sh.Length() - 1];
    StripNoSpaceIdentity(m);
    assert CompactPostcode(m) == Replace(m, " ", "");
    PostcodeGuardPasses(s, i, sh);
  }

  /** A formatted match has the form of a full postcode. */
  lemma FormatMatchShape(s: string, i: nat, sh: PostcodeShape)
    requires IsShapeAt(s, i, sh)
    ensures var p := FormatMatch(s[i..i + sh.Length()]); p.Some? && PostcodeForm(p.value)
  {
    CompactMatch(s, i, sh);
    var c := Replace(s[i..i + sh.Length()], " ", "");
    var e := i + sh.letters + 1 + sh.extra + sh.spaces;
    assert c[|c| - 3..] == s[e..e + 3];
    assert c[0] == s[i];
  }

  /** When the search stops at `i` with shape `sh`, the postcode is the formatted text matched there. */
  lemma PostcodeInAt(s: string, i: nat, sh: PostcodeShape)
    requires SearchFrom(s, 0) == Some((i, sh))
    ensures IsShapeAt(s, i, sh)
    ensures PostcodeIn(s) == FormatMatch(s[i..i + sh.Length()])
  {
    MatchTextAt(s, i, sh);
  }

  lemma MatchTextAt(s: string, i: nat, sh: PostcodeShape)
    requires SearchFrom(s, 0) == Some((i, sh))
    ensures IsShapeAt(s, i, sh)
    ensures MatchText(s) == Some(s[i..i + sh.Length()])
  {
  }

  /** The matched text is a stretch of `s` the pattern matches. */
  lemma MatchTextMatches(s: string)
    requires MatchText(s).Some?
    ensures exists i: nat, sh :: IsShapeAt(s, i, sh) && MatchText(s).value == s[i..i + sh.Length()]
  {
    var r := SearchFrom(s, 0);
    MatchTextAt(s, r.value.0, r.value.1);
  }

  /** No stretch of `s` to the left of the matched one matches. */
  lemma MatchTextLeftmost(s: string)
    requires MatchText(s).Some?
    ensures exists i: nat, sh :: && IsShapeAt(s, i, sh) && MatchText(s).value == s[i..i + sh.Length()]
                                 && forall j: nat, sh' :: j < i ==> !IsShapeAt(s, j, sh')
  {
    var r := SearchFrom(s, 0);
    var i, sh := r.value.0, r.value.1;
    MatchTextAt(s, i, sh);
    forall j: nat, sh' | j < i ensures !IsShapeAt(s, j, sh')
    {
      if IsShapeAt(s, j, sh') {
        MatchAtComplete(s, j, sh');
        assert false;
      }
    }
  }

  /** There is no matched text exactly when the pattern matches nowhere. */
  lemma MatchTextNone(s: string)
    ensures MatchText(s).None? <==> forall i: nat, sh :: i <= |s| ==> !IsShapeAt(s, i, sh)
  {
    SearchFindsAny(s);
  }

  /** In an upper-cased text, a found postcode is `validate_postcode` of the matched text, and that validator leaves it unchanged. */
  lemma PostcodeInValidated(s: string)
    requires PostcodeIn(s).Some?
    requires forall k :: 0 <= k < |s| ==> UpperFixed(s[k])
    ensures MatchText(s).Some? && PostcodeIn(s) == ValidatePostcode(MatchText(s))
    ensures ValidatePostcode(PostcodeIn(s)) == PostcodeIn(s)
    ensures PostcodeForm(PostcodeIn(s).value)
  {
    var r := SearchFrom(s, 0);
    var i, sh := r.value.0, r.value.1;
    MatchTextAt(s, i, sh);
    PostcodeInAt(s, i, sh);
    FormattedMatchValidated(s, i, sh);
  }

  /** Everything the postcode lemmas need about one formatted match of an upper-cased text. */
  lemma FormattedMatchValidated(s: string, i: nat, sh: PostcodeShape)
    requires IsShapeAt(s, i, sh)
    requires forall k :: 0 <= k < |s| ==> UpperFixed(s[k])
    ensures var m := s[i..i + sh.Length()];
      && FormatMatch(m) == ValidatePostcode(Some(m))
      && ValidatePostcode(FormatMatch(m)) == FormatMatch(m)
      && FormatMatch(m).Some? && PostcodeForm(FormatMatch(m).value)
  {
    var m := s[i..i + sh.Length()];
    FormatMatchValidated(s, i, sh);
    FormatMatchShape(s, i, sh);
    NormalisePostcodeIdempotent(m);
  }

  /** A found postcode is `validate_postcode` applied to the matched text and already has that validator's form: it leaves the postcode unchanged. */
  lemma ExtractPostcodeValidated(address: string)
    requires ExtractPostcode(address).Some?
    ensures ExtractPostcode(address) == ValidatePostcode(MatchText(Upper(address)))
    ensures ValidatePostcode(ExtractPostcode(address)) == ExtractPostcode(address)
    ensures PostcodeForm(ExtractPostcode(address).value)
  {
    PostcodeInValidated(Upper(address));
  }
}
