/**
 * How one saved alert is matched against one planning application: the
 * per-type matchers, their scores and reasons, and the triggers a batch of
 * new applications produces.
 */
module AlertMatch {
  import opened Common
  import opened PyStr
  import opened AlertRecord

  /** The fields of a new planning application that matching reads. */
  datatype Application = Application(reference: string, address: string, postcode: string, ward: string,
                                     description: string, applicant: Option<string>, agent: Option<string>,
                                     developmentType: Option<string>, policies: seq<string>)

  /** Why an application matched; the text the source formats from it is not modelled. */
  datatype Reason =
    | ExactAddress(address: string) | AddressContains(value: string) | SimilarAddress(address: string)
    | PostcodeExact(postcode: string) | PostcodeArea(outcode: string)
    | WardExact(ward: string) | WardPartial(ward: string)
    | KeywordMatches(keywords: seq<string>) | PolicyMatches(policies: set<string>)
    | TypeExact(developmentType: string) | TypeContains(value: string)
    | ApplicantExact(name: string) | ApplicantSimilar(name: string)
    | AgentExact(name: string) | AgentSimilar(name: string)

  datatype Match = Match(score: real, reason: Reason)

  /** The text lowercased, with surrounding whitespace removed. */
  function Norm(s: string): string
  {
    Strip(Lower(s))
  }

  /** The set of whitespace-separated words of a text. */
  function WordSet(s: string): set<string>
  {
    set w | w in Words(s)
  }

  /** The elements of a sequence, as a set. */
  function SetOf(xs: seq<string>): set<string>
  {
    set x | x in xs
  }

  /** A list has at least as many entries as distinct ones. */
  lemma {:induction false} SetOfSize(xs: seq<string>)
    ensures |SetOf(xs)| <= |xs|
    decreases |xs|
  {
    if xs != [] {
      SetOfSize(xs[1..]);
      assert SetOf(xs) == SetOf(xs[1..]) + {xs[0]};
    }
  }

  /** A subset has no more elements than its superset. */
  lemma {:induction false} SubsetSize(a: set<string>, b: set<string>)
    requires a <= b
    ensures |a| <= |b|
    decreases |a|
  {
    if a != {} {
      var x :| x in a;
      SubsetSize(a - {x}, b - {x});
    }
  }

  /** `n / d` as a float: the share of `d` that `n` is. */
  function Share(n: nat, d: nat): (r: real)
    requires d > 0
    ensures n <= d ==> r <= 1.0
    ensures n > 0 ==> r > 0.0
  {
    (n as real) / (d as real)
  }

  // ---------------------------------------------------------------------
  // Address

  /** The words two addresses share, and the larger of their word counts. */
  function SharedWords(a: string, b: string): set<string>
  {
    WordSet(a) * WordSet(b)
  }

  function WiderWordCount(a: string, b: string): nat
  {
    if |WordSet(a)| <= |WordSet(b)| then |WordSet(b)| else |WordSet(a)|
  }

  /** Shared words are no more than either side's words. */
  lemma SharedWordsBound(a: string, b: string)
    ensures |SharedWords(a, b)| <= WiderWordCount(a, b)
  {
    SubsetSize(SharedWords(a, b), WordSet(a));
    SubsetSize(SharedWords(a, b), WordSet(b));
  }

  /**
   * `_match_address`: 1.0 for the same normalised address, 0.9 when the
   * alert's is contained in the application's, else the share of words
   * when at least three are shared and the share is above one half.
   */
  function MatchAddress(value: string, app: Application): (r: Option<Match>)
    ensures Norm(value) == Norm(app.address) ==> r == Some(Match(1.0, ExactAddress(app.address)))
    ensures Norm(value) != Norm(app.address) && Contains(Norm(app.address), Norm(value))
            ==> r == Some(Match(0.9, AddressContains(value)))
    ensures Norm(value) != Norm(app.address) && !Contains(Norm(app.address), Norm(value))
            ==> r == WordOverlap(Norm(value), Norm(app.address), app.address)
    ensures r.Some? ==> 0.5 < r.value.score <= 1.0
  {
    var a := Norm(value);
    var b := Norm(app.address);
    if a == b then Some(Match(1.0, ExactAddress(app.address)))
    else if Contains(b, a) then Some(Match(0.9, AddressContains(value)))
    else WordOverlap(a, b, app.address)
  }

  /** The last tier of `_match_address`: at least three shared words, making up more than half of the longer address. */
  function WordOverlap(a: string, b: string, address: string): (r: Option<Match>)
    ensures r.Some? ==> 0.5 < r.value.score <= 1.0 && r.value.reason == SimilarAddress(address)
    ensures r.Some? ==> |SharedWords(a, b)| >= 3
                        && r.value.score * (WiderWordCount(a, b) as real) == |SharedWords(a, b)| as real
  {
    var common := |SharedWords(a, b)|;
    if common >= 3 then
      SharedWordsBound(a, b);
      var score := Share(common, WiderWordCount(a, b));
      if score > 0.5 then Some(Match(score, SimilarAddress(address))) else None
    else None
  }

  // ---------------------------------------------------------------------
  // Postcode

  /** A postcode upper-cased, with every space removed. */
  function Compact(p: string): string
  {
    Replace(Upper(p), " ", "")
  }

  /** The "outcode" as the source takes it: the first three characters of the compacted postcode. */
  function FirstThree(c: string): (r: string)
    ensures |r| == Min(3, |c|) && r == c[..|r|]
  {
    Take(c, 3)
  }

  /**
   * `_match_postcode` as written: 1.0 for the same compacted postcode, 0.8
   * when the first three characters agree.
   */
  function MatchPostcode(value: string, app: Application): (r: Option<Match>)
    ensures Compact(value) == Compact(app.postcode) <==> r.Some? && r.value.score == 1.0
    ensures r.Some? <==> FirstThree(Compact(value)) == FirstThree(Compact(app.postcode))
    ensures r.Some? ==> r.value.score == 1.0 || r.value == Match(0.8, PostcodeArea(FirstThree(Compact(app.postcode))))
  {
    var a := Compact(value);
    var b := Compact(app.postcode);
    if a == b then Some(Match(1.0, PostcodeExact(app.postcode)))
    else if FirstThree(a) == FirstThree(b) then Some(Match(0.8, PostcodeArea(FirstThree(b))))
    else None
  }

  /** Two applications with postcodes in different districts, N1 and N12. */
  const AlertN1 := "N1 2AB"
  const InN12 := Application("2024/0001/P", "1 High Street", "N12 3CD", "Belsize", "", None, None, None, [])

  /** A postcode written as two upper-case, space-free halves with one space between compacts to the halves joined. */
  lemma CompactSpaced(x: string, y: string)
    requires forall i :: 0 <= i < |x| ==> x[i] != ' ' && UpperChar(x[i]) == x[i]
    requires forall i :: 0 <= i < |y| ==> y[i] != ' ' && UpperChar(y[i]) == y[i]
    ensures Compact(x + " " + y) == x + y
  {
    var s := x + " " + y;
    assert Upper(s) == s;
    assert s == x + (" " + y);
    ReplaceCharConcat(x, " " + y, ' ');
    ReplaceCharConcat(" ", y, ' ');
    ReplaceCharAbsent(x, ' ');
    ReplaceCharAbsent(y, ' ');
    var tail := Replace(" " + y, " ", "");
    assert Replace(" ", " ", "") == "";
    assert tail == y;
    assert Compact(s) == Replace(s, " ", "");
  }

  /** The first three characters of a compacted postcode are not its outward code: N1 2AB area-matches N12 3CD. */
  lemma AreaMatchCrossesDistricts()
    ensures MatchPostcode(AlertN1, InN12) == Some(Match(0.8, PostcodeArea("N12")))
  {
    CompactAlertN1();
    CompactInN12();
    assert FirstThree("N12AB") == "N12";
    assert FirstThree("N123CD") == "N12";
  }

  lemma CompactAlertN1()
    ensures Compact(AlertN1) == "N12AB"
  {
    CompactSpaced("N1", "2AB");
    var spaced, joined := "N1" + " " + "2AB", "N1" + "2AB";
    assert |spaced| == 6 && spaced[0] == 'N' && spaced[1] == '1' && spaced[2] == ' ';
    assert spaced[3] == '2' && spaced[4] == 'A' && spaced[5] == 'B';
    assert AlertN1 == spaced;
    assert |joined| == 5 && joined[0] == 'N' && joined[1] == '1' && joined[2] == '2' && joined[3] == 'A' && joined[4] == 'B';
    assert joined == "N12AB";
  }

  lemma CompactInN12()
    ensures Compact(InN12.postcode) == "N123CD"
  {
    CompactSpaced("N12", "3CD");
    var spaced, joined := "N12" + " " + "3CD", "N12" + "3CD";
    assert |spaced| == 7 && spaced[0] == 'N' && spaced[1] == '1' && spaced[2] == '2' && spaced[3] == ' ';
    assert spaced[4] == '3' && spaced[5] == 'C' && spaced[6] == 'D';
    assert InN12.postcode == spaced;
    assert |joined| == 6 && joined[0] == 'N' && joined[1] == '1' && joined[2] == '2';
    assert joined[3] == '3' && joined[4] == 'C' && joined[5] == 'D';
    assert joined == "N123CD";
  }

  /** The outward code of a compacted postcode: all but the three characters of the inward code. */
  function Outward(c: string): (r: string)
    ensures |c| >= 3 ==> r + c[|c| - 3..] == c
  {
    if |c| >= 3 then c[..|c| - 3] else c
  }

  /** Postcode matching by outward code: 1.0 for the same compacted postcode, 0.8 for the same outward code. */
  function MatchPostcodeByOutward(value: string, app: Application): (r: Option<Match>)
    ensures Compact(value) == Compact(app.postcode) <==> r.Some? && r.value.score == 1.0
    ensures r.Some? <==> Outward(Compact(value)) == Outward(Compact(app.postcode))
  {
    var a := Compact(value);
    var b := Compact(app.postcode);
    if a == b then Some(Match(1.0, PostcodeExact(app.postcode)))
    else if Outward(a) == Outward(b) then Some(Match(0.8, PostcodeArea(Outward(b))))
    else None
  }

  /** Two full postcodes area-match by outward code exactly when their outward codes are equal. */
  lemma OutwardMatchIsDistrictMatch(outA: string, inA: string, outB: string, inB: string, app: Application)
    requires |inA| == 3 && |inB| == 3
    requires Compact(app.postcode) == outB + inB
    ensures MatchPostcodeByOutward(outA + inA, app).Some? <==> Compact(outA + inA) == outB + inB || Outward(Compact(outA + inA)) == outB
  {
    assert Outward(outB + inB) == outB by {
      assert (outB + inB)[..|outB + inB| - 3] == outB;
    }
  }

  // ---------------------------------------------------------------------
  // Ward, applicant, agent, development type

  /** The score of two names: 1.0 when equal after normalising, 0.8 when one contains the other. */
  function Likeness(alertValue: string, target: string): (r: Option<real>)
    ensures r.Some? ==> r.value == 1.0 || r.value == 0.8
    ensures r == Some(1.0) <==> Norm(alertValue) == Norm(target)
    ensures r.Some? <==> Norm(alertValue) == Norm(target) || Contains(Norm(target), Norm(alertValue))
                         || Contains(Norm(alertValue), Norm(target))
  {
    var a := Norm(alertValue);
    var b := Norm(target);
    if a == b then Some(1.0)
    else if Contains(b, a) || Contains(a, b) then Some(0.8)
    else None
  }

  /** Name matching looks both ways: swapping the two sides gives the same score. */
  lemma LikenessSymmetric(a: string, b: string)
    ensures Likeness(a, b) == Likeness(b, a)
  {
  }

  /** `_match_ward` */
  function MatchWard(value: string, app: Application): (r: Option<Match>)
    ensures r.Some? <==> Likeness(value, app.ward).Some?
    ensures r.Some? ==> r.value.score == Likeness(value, app.ward).value
  {
    match Likeness(value, app.ward)
    case None => None
    case Some(s) => Some(Match(s, if s == 1.0 then WardExact(app.ward) else WardPartial(app.ward)))
  }

  /** Python's truth value of an optional text: present and not empty. */
  predicate Present(v: Option<string>)
  {
    v.Some? && v.value != ""
  }

  /** `_match_applicant`: no match without an applicant. */
  function MatchApplicant(value: string, app: Application): (r: Option<Match>)
    ensures !Present(app.applicant) ==> r.None?
    ensures Present(app.applicant) ==> (r.Some? <==> Likeness(value, app.applicant.value).Some?)
    ensures r.Some? ==> r.value.score == Likeness(value, app.applicant.value).value
  {
    if !Present(app.applicant) then None
    else match Likeness(value, app.applicant.value)
      case None => None
      case Some(s) => Some(Match(s, if s == 1.0 then ApplicantExact(app.applicant.value) else ApplicantSimilar(app.applicant.value)))
  }

  /** `_match_agent`: no match without an agent. */
  function MatchAgent(value: string, app: Application): (r: Option<Match>)
    ensures !Present(app.agent) ==> r.None?
    ensures Present(app.agent) ==> (r.Some? <==> Likeness(value, app.agent.value).Some?)
    ensures r.Some? ==> r.value.score == Likeness(value, app.agent.value).value
  {
    if !Present(app.agent) then None
    else match Likeness(value, app.agent.value)
      case None => None
      case Some(s) => Some(Match(s, if s == 1.0 then AgentExact(app.agent.value) else AgentSimilar(app.agent.value)))
  }

  /** `_match_development_type`: equal, or the alert's type contained in the application's (one way only). */
  function MatchDevelopmentType(value: string, app: Application): (r: Option<Match>)
    ensures !Present(app.developmentType) ==> r.None?
    ensures Present(app.developmentType) ==>
              (r.Some? <==> Norm(value) == Norm(app.developmentType.value) || Contains(Norm(app.developmentType.value), Norm(value)))
    ensures r.Some? ==> (r.value.score == 1.0 <==> Norm(value) == Norm(app.developmentType.value))
    ensures r.Some? ==> r.value.score == 1.0 || r.value.score == 0.8
  {
    if !Present(app.developmentType) then None
    else
      var a := Norm(value);
      var b := Norm(app.developmentType.value);
      if a == b then Some(Match(1.0, TypeExact(app.developmentType.value)))
      else if Contains(b, a) then Some(Match(0.8, TypeContains(value)))
      else None
  }

  // ---------------------------------------------------------------------
  // Keywords and policies

  /** The comma-separated keywords of an alert, each stripped and lowercased. */
  function KeywordList(value: string): (r: seq<string>)
    ensures |r| >= 1
  {
    LowerAll(StripAll(SplitChar(value, ',')))
  }

  function LowerAll(ss: seq<string>): (r: seq<string>)
    ensures |r| == |ss| && forall i :: 0 <= i < |ss| ==> r[i] == Lower(ss[i])
  {
    if ss == [] then [] else [Lower(ss[0])] + LowerAll(ss[1..])
  }

  function UpperAll(ss: seq<string>): (r: seq<string>)
    ensures |r| == |ss| && forall i :: 0 <= i < |ss| ==> r[i] == Upper(ss[i])
  {
    if ss == [] then [] else [Upper(ss[0])] + UpperAll(ss[1..])
  }

  /**
   * `_match_keyword`: the listed keywords found in the lowercased
   * description, in list order; the score is their share of the list.
   */
  function MatchKeyword(value: string, app: Application): (r: Option<Match>)
    ensures var found := Filter(KeywordList(value), (k: string) => Contains(Lower(app.description), k));
      && (r.Some? <==> found != [])
      && (r.Some? ==> r.value == Match(Share(|found|, |KeywordList(value)|), KeywordMatches(found)))
    ensures r.Some? ==> 0.0 < r.value.score <= 1.0
  {
    var keywords := KeywordList(value);
    var found := Filter(keywords, (k: string) => Contains(Lower(app.description), k));
    if found != [] then Some(Match(Share(|found|, |keywords|), KeywordMatches(found))) else None
  }

  /** Every text contains the empty text. */
  lemma ContainsEmpty(s: string)
    ensures Contains(s, "")
  {
  }

  /** A keyword alert with an empty entry (an empty value, or a trailing comma) matches every application. */
  lemma EmptyKeywordMatchesAll(value: string, app: Application)
    requires "" in KeywordList(value)
    ensures MatchKeyword(value, app).Some?
  {
    var keywords := KeywordList(value);
    ContainsEmpty(Lower(app.description));
    var i :| 0 <= i < |keywords| && keywords[i] == "";
    FilterKeepsWitness(keywords, (k: string) => Contains(Lower(app.description), k), i);
  }

  /** The comma-separated policy references of an alert, each stripped and upper-cased. */
  function PolicyList(value: string): (r: seq<string>)
    ensures |r| >= 1
  {
    UpperAll(StripAll(SplitChar(value, ',')))
  }

  /**
   * `_match_policy`: the policies named both by the alert and the
   * application (uppercased); the score divides by the length of the
   * alert's list, repeats included.
   */
  function MatchPolicy(value: string, app: Application): (r: Option<Match>)
    ensures var shared := SetOf(PolicyList(value)) * SetOf(UpperAll(app.policies));
      && (r.Some? <==> shared != {})
      && (r.Some? ==> r.value == Match(Share(|shared|, |PolicyList(value)|), PolicyMatches(shared)))
    ensures r.Some? ==> 0.0 < r.value.score <= 1.0
  {
    var listed := PolicyList(value);
    var shared := SetOf(listed) * SetOf(UpperAll(app.policies));
    if shared != {} then
      SetOfSize(listed);
      SubsetSize(shared, SetOf(listed));
      Some(Match(Share(|shared|, |listed|), PolicyMatches(shared)))
    else None
  }

  // ---------------------------------------------------------------------
  // Dispatch


  /** `match_alert`: an inactive alert never matches; otherwise the rule of the alert's type. */
  function MatchAlert(v: AlertView, app: Application): (r: Option<Match>)
    ensures !v.isActive ==> r.None?
    ensures r.Some? ==> 0.0 < r.value.score <= 1.0
  {
    if !v.isActive then None
    else match v.alertType
      case Address => MatchAddress(v.value, app)
      case Postcode => MatchPostcode(v.value, app)
      case Ward => MatchWard(v.value, app)
      case Keyword => MatchKeyword(v.value, app)
      case Policy => MatchPolicy(v.value, app)
      case DevelopmentType => MatchDevelopmentType(v.value, app)
      case Applicant => MatchApplicant(v.value, app)
      case Agent => MatchAgent(v.value, app)
  }

  datatype CaseData = CaseData(address: string, postcode: string, ward: string, description: string,
                               developmentType: Option<string>)

  datatype Trigger = Trigger(alertId: string, caseReference: string, reason: Reason, score: real,
                             caseData: CaseData, triggeredAt: int, wasNotified: bool)

  function CaseDataOf(app: Application): (d: CaseData)
    ensures |d.description| <= 500 && |d.description| <= |app.description|
    ensures d.description == app.description[..|d.description|]
  {
    CaseData(app.address, app.postcode, app.ward, Take(app.description, 500), app.developmentType)
  }

  /** A matching rule of the shape of `match_alert`, which the trigger loop is given. */
  type Matcher = (AlertView, Application) -> Option<Match>

  /** The trigger, if any, that alert `v` yields for the application: none when the alert is inactive or does not match. */
  function TriggerOf(matcher: Matcher, app: Application, v: AlertView, now: int): (ts: seq<Trigger>)
    ensures |ts| <= 1
    ensures ts != [] <==> v.isActive && matcher(v, app).Some?
    ensures ts != [] ==> ts[0].alertId == v.id && ts[0].caseReference == app.reference && !ts[0].wasNotified
  {
    if !v.isActive then []
    else match matcher(v, app)
      case None => []
      case Some(m) => [Trigger(v.id, app.reference, m.reason, m.score, CaseDataOf(app), now, false)]
  }

  /** The triggers one application raises against alerts `vs`, in alert order. */
  function AppTriggers(matcher: Matcher, app: Application, vs: seq<AlertView>, now: int): (ts: seq<Trigger>)
    ensures |ts| <= |vs|
  {
    if vs == [] then []
    else AppTriggers(matcher, app, vs[..|vs| - 1], now) + TriggerOf(matcher, app, vs[|vs| - 1], now)
  }

  /** The alerts' triggers for one more alert. */
  lemma AppTriggersStep(matcher: Matcher, app: Application, vs: seq<AlertView>, j: nat, now: int)
    requires j < |vs|
    ensures AppTriggers(matcher, app, vs[..j + 1], now) == AppTriggers(matcher, app, vs[..j], now) + TriggerOf(matcher, app, vs[j], now)
  {
    assert vs[..j + 1][..j] == vs[..j];
  }

  /** The triggers of a batch of applications, application by application. */
  function BatchTriggers(matcher: Matcher, apps: seq<Application>, vs: seq<AlertView>, now: int): seq<Trigger>
  {
    if apps == [] then []
    else BatchTriggers(matcher, apps[..|apps| - 1], vs, now) + AppTriggers(matcher, apps[|apps| - 1], vs, now)
  }

  /** 1 when the alert is active and the application matches it, else 0. */
  function Hit(matcher: Matcher, v: AlertView, app: Application): nat
  {
    if v.isActive && matcher(v, app).Some? then 1 else 0
  }

  /** The number of applications of a batch that trigger alert `v`. */
  function Hits(matcher: Matcher, apps: seq<Application>, v: AlertView): nat
  {
    if apps == [] then 0 else Hits(matcher, apps[..|apps| - 1], v) + Hit(matcher, v, apps[|apps| - 1])
  }

  /** Two batches processed in turn trigger what the joined batch triggers. */
  lemma {:induction false} BatchTriggersAppend(matcher: Matcher, a: seq<Application>, b: seq<Application>,
                                               vs: seq<AlertView>, now: int)
    ensures BatchTriggers(matcher, a + b, vs, now) == BatchTriggers(matcher, a, vs, now) + BatchTriggers(matcher, b, vs, now)
    decreases |b|
  {
    if b == [] {
      assert a + b == a;
    } else {
      var init, x := b[..|b| - 1], b[|b| - 1];
      var ts := AppTriggers(matcher, x, vs, now);
      assert BatchTriggers(matcher, a + b, vs, now) == BatchTriggers(matcher, a + init, vs, now) + ts by {
        assert (a + b)[..|a + b| - 1] == a + init && (a + b)[|a + b| - 1] == x;
      }
      assert BatchTriggers(matcher, b, vs, now) == BatchTriggers(matcher, init, vs, now) + ts;
      BatchTriggersAppend(matcher, a, init, vs, now);
      var front, rest := BatchTriggers(matcher, a, vs, now), BatchTriggers(matcher, init, vs, now);
      assert (front + rest) + ts == front + (rest + ts);
    }
  }

  /** Two batches processed in turn hit an alert as often as the joined batch does. */
  lemma {:induction false} HitsAppend(matcher: Matcher, a: seq<Application>, b: seq<Application>, v: AlertView)
    ensures Hits(matcher, a + b, v) == Hits(matcher, a, v) + Hits(matcher, b, v)
    decreases |b|
  {
    if b == [] {
      assert a + b == a;
    } else {
      var init := b[..|b| - 1];
      HitsAppend(matcher, a, init, v);
      assert (a + b)[..|a + b| - 1] == a + init;
      assert (a + b)[|a + b| - 1] == b[|b| - 1];
    }
  }

  /** With `match_alert` as the rule, the activity test before matching changes nothing: it is a hit exactly when it matches. */
  lemma MatchAlertHit(v: AlertView, app: Application)
    ensures Hit(MatchAlert, v, app) == if MatchAlert(v, app).Some? then 1 else 0
  {
  }

  /** Every trigger names an active alert that the application matched, with that match's score and reason. */
  lemma {:induction false} AppTriggersSound(matcher: Matcher, app: Application, vs: seq<AlertView>, now: int)
    ensures forall t :: t in AppTriggers(matcher, app, vs, now) ==>
              t.caseReference == app.reference
              && (exists v :: v in vs && v.isActive && v.id == t.alertId && matcher(v, app) == Some(Match(t.score, t.reason)))
    decreases |vs|
  {
    if vs != [] {
      var init, last := vs[..|vs| - 1], vs[|vs| - 1];
      AppTriggersSound(matcher, app, init, now);
      forall t | t in AppTriggers(matcher, app, vs, now)
        ensures t.caseReference == app.reference
                && (exists v :: v in vs && v.isActive && v.id == t.alertId && matcher(v, app) == Some(Match(t.score, t.reason)))
      {
        if t in AppTriggers(matcher, app, init, now) {
          var v :| v in init && v.isActive && v.id == t.alertId && matcher(v, app) == Some(Match(t.score, t.reason));
          assert v in vs;
        } else {
          assert last in vs;
        }
      }
    }
  }

  /** One trigger per active alert the application matches. */
  lemma {:induction false} AppTriggersCount(matcher: Matcher, app: Application, vs: seq<AlertView>, now: int)
    ensures |AppTriggers(matcher, app, vs, now)| == CountWhere(vs, (v: AlertView) => v.isActive && matcher(v, app).Some?)
    decreases |vs|
  {
    if vs != [] {
      AppTriggersCount(matcher, app, vs[..|vs| - 1], now);
    }
  }
}
