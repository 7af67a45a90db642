/**
 * The planning-decision records: the string enumerations, the two field
 * normalisers (case reference and postcode) with the patterns their fields
 * carry, and the constraints of the search request and of a precedent match.
 */
module Planning {
  import opened Common
  import opened PyStr

  // ---------------------------------------------------------------------
  // Enumerations (string-valued)

  datatype Outcome = Granted | Refused | Withdrawn | Pending | AppealAllowed | AppealDismissed
  {
    function Value(): string
    {
      match this
      case Granted => "Granted"
      case Refused => "Refused"
      case Withdrawn => "Withdrawn"
      case Pending => "Pending"
      case AppealAllowed => "Appeal Allowed"
      case AppealDismissed => "Appeal Dismissed"
    }
  }

  /** `Outcome(s)`: the member whose value is `s`, or `None` (Python raises `ValueError`). */
  function OutcomeFromValue(s: string): (r: Option<Outcome>)
    ensures r.Some? ==> r.value.Value() == s
  {
    if s == "Granted" then Some(Granted)
    else if s == "Refused" then Some(Refused)
    else if s == "Withdrawn" then Some(Withdrawn)
    else if s == "Pending" then Some(Pending)
    else if s == "Appeal Allowed" then Some(AppealAllowed)
    else if s == "Appeal Dismissed" then Some(AppealDismissed)
    else None
  }

  /** Every outcome is found again from its value: the values are distinct. */
  lemma OutcomeRoundTrip(o: Outcome)
    ensures OutcomeFromValue(o.Value()) == Some(o)
  {
  }

  datatype DevelopmentType =
    | RearExtension | SideExtension | LoftConversion | DormerWindow | Basement
    | RoofExtension | ChangeOfUse | NewBuild | Demolition | Alterations
    | ListedBuilding | Conservation | TreeWorks | Advertisement | Other
  {
    function Value(): string
    {
      match this
      case RearExtension => "Rear Extension"
      case SideExtension => "Side Extension"
      case LoftConversion => "Loft Conversion"
      case DormerWindow => "Dormer Window"
      case Basement => "Basement/Subterranean"
      case RoofExtension => "Roof Extension"
      case ChangeOfUse => "Change of Use"
      case NewBuild => "New Build"
      case Demolition => "Demolition"
      case Alterations => "Alterations"
      case ListedBuilding => "Listed Building Consent"
      case Conservation => "Conservation Area"
      case TreeWorks => "Tree Works"
      case Advertisement => "Advertisement"
      case Other => "Other"
    }
  }

  /** `DevelopmentType(s)`: the member whose value is `s`, or `None`. */
  function DevelopmentTypeFromValue(s: string): (r: Option<DevelopmentType>)
    ensures r.Some? ==> r.value.Value() == s
  {
    if s == "Rear Extension" then Some(RearExtension)
    else if s == "Side Extension" then Some(SideExtension)
    else if s == "Loft Conversion" then Some(LoftConversion)
    else if s == "Dormer Window" then Some(DormerWindow)
    else if s == "Basement/Subterranean" then Some(Basement)
    else if s == "Roof Extension" then Some(RoofExtension)
    else if s == "Change of Use" then Some(ChangeOfUse)
    else if s == "New Build" then Some(NewBuild)
    else if s == "Demolition" then Some(Demolition)
    else if s == "Alterations" then Some(Alterations)
    else if s == "Listed Building Consent" then Some(ListedBuilding)
    else if s == "Conservation Area" then Some(Conservation)
    else if s == "Tree Works" then Some(TreeWorks)
    else if s == "Advertisement" then Some(Advertisement)
    else if s == "Other" then Some(Other)
    else None
  }

  /** Every development type is found again from its value. */
  lemma DevelopmentTypeRoundTrip(t: DevelopmentType)
    ensures DevelopmentTypeFromValue(t.Value()) == Some(t)
  {
  }

  datatype PropertyType = Terraced | SemiDetached | Detached | Flat | MansionBlock | Commercial | MixedUse | OtherProperty
  {
    function Value(): string
    {
      match this
      case Terraced => "Terraced House"
      case SemiDetached => "Semi-Detached"
      case Detached => "Detached"
      case Flat => "Flat/Maisonette"
      case MansionBlock => "Mansion Block"
      case Commercial => "Commercial"
      case MixedUse => "Mixed Use"
      case OtherProperty => "Other"
    }
  }

  datatype ConservationAreaStatus =
    | Hampstead | Belsize | SouthHampstead | FitzjohnsNetherhall | RedingtonFrognal
    | WestHampstead | SwissCottage | PrimroseHill | ChalkFarm | CamdenTown
    | KentishTown | Bloomsbury | NoArea
  {
    function Value(): string
    {
      match this
      case Hampstead => "Hampstead Conservation Area"
      case Belsize => "Belsize Conservation Area"
      case SouthHampstead => "South Hampstead Conservation Area"
      case FitzjohnsNetherhall => "Fitzjohn's/Netherhall Conservation Area"
      case RedingtonFrognal => "Redington Frognal Conservation Area"
      case WestHampstead => "West Hampstead Conservation Area"
      case SwissCottage => "Swiss Cottage Conservation Area"
      case PrimroseHill => "Primrose Hill Conservation Area"
      case ChalkFarm => "Chalk Farm Conservation Area"
      case CamdenTown => "Camden Town Conservation Area"
      case KentishTown => "Kentish Town Conservation Area"
      case Bloomsbury => "Bloomsbury Conservation Area"
      case NoArea => "None"
    }
  }

  // ---------------------------------------------------------------------
  // Records

  /** A stored planning decision; dates are day numbers. */
  datatype PlanningDecision = PlanningDecision(
    id: int,
    caseReference: string,
    address: string,
    ward: string,
    postcode: Option<string>,
    decisionDate: int,
    outcome: Outcome,
    applicationType: string,
    developmentType: Option<DevelopmentType>,
    description: string,
    conservationArea: Option<ConservationAreaStatus>,
    listedBuilding: bool,
    fullText: Option<string>,
    officerReportUrl: Option<string>,
    decisionNoticeUrl: Option<string>)

  /** The search filters; every field may be absent. */
  datatype SearchFilters = SearchFilters(
    wards: Option<seq<string>>,
    outcome: Option<Outcome>,
    developmentTypes: Option<seq<DevelopmentType>>,
    propertyTypes: Option<seq<PropertyType>>,
    conservationAreas: Option<seq<ConservationAreaStatus>>,
    listedBuildingOnly: bool,
    dateFrom: Option<int>,
    dateTo: Option<int>,
    postcodePrefix: Option<string>)

  /** `SearchFilters()`: nothing set, `listed_building_only` false. */
  const NoFilters := SearchFilters(None, None, None, None, None, false, None, None, None)

  /** Python truthiness of an optional list: present and non-empty. */
  predicate IsSet<T>(o: Option<seq<T>>) { o.Some? && o.value != [] }

  datatype PrecedentMatch = PrecedentMatch(
    decision: PlanningDecision,
    similarityScore: real,
    relevantExcerpt: string,
    matchedChunkId: int,
    keyPolicies: seq<string>)

  // ---------------------------------------------------------------------
  // Case reference

  predicate AllDigits(s: string) { forall i :: 0 <= i < |s| ==> IsDigit(s[i]) }

  predicate AllUpper(s: string) { forall i :: 0 <= i < |s| ==> IsAsciiUpper(s[i]) }

  /** `\d{k}/[A-Z]+` followed by the end of the text. */
  predicate SerialTail(t: string, k: nat)
  {
    |t| >= k + 2 && AllDigits(t[..k]) && t[k] == '/' && AllUpper(t[k + 1..])
  }

  /** The case-reference pattern `^\d{4}/\d{4,5}/[A-Z]+$`, e.g. `2023/1234/P`. */
  predicate IsCaseReference(s: string)
  {
    |s| >= 5 && AllDigits(s[..4]) && s[4] == '/' && (SerialTail(s[5..], 4) || SerialTail(s[5..], 5))
  }

  const InvalidCaseReference := "Invalid case reference format"

  /** `validate_case_reference`: upper-case, strip, then require the pattern. */
  function ValidateCaseReference(v: string): (r: Result<string>)
  {
    var u := Strip(Upper(v));
    if IsCaseReference(u) then Ok(u) else Err(InvalidCaseReference)
  }

  /** Accepted exactly when the normalised text has the pattern, and then that text is the value. */
  lemma ValidateCaseReferenceSpec(v: string)
    ensures ValidateCaseReference(v).Ok? <==> IsCaseReference(Strip(Upper(v)))
    ensures ValidateCaseReference(v).Ok? ==> ValidateCaseReference(v).value == Strip(Upper(v))
    ensures ValidateCaseReference(v).Err? ==> ValidateCaseReference(v).msg == InvalidCaseReference
  {
  }

  predicate UpperFixed(c: char) { UpperChar(c) == c }

  /** A text with the case-reference pattern is already upper-case and stripped. */
  lemma CaseReferenceNormal(s: string)
    requires IsCaseReference(s)
    ensures Upper(s) == s && Strip(s) == s
  {
    assert s[0] == s[..4][0] && IsDigit(s[0]);
    var k := if SerialTail(s[5..], 4) then 4 else 5;
    var t := s[5..];
    assert s[|s| - 1] == t[k + 1..][|t| - k - 2];
    StripNoSpaceIdentity(s);
    forall i | 0 <= i < |s| ensures UpperChar(s[i]) == s[i] {
      if i < 4 {
        assert s[i] == s[..4][i];
      } else if 5 <= i < 5 + k {
        assert s[i] == t[..k][i - 5];
      } else if 5 + k < i {
        assert s[i] == t[k + 1..][i - 5 - k - 1];
      }
    }
  }

  /** Normalising an accepted reference again gives the same reference. */
  lemma ValidateCaseReferenceIdempotent(v: string)
    requires ValidateCaseReference(v).Ok?
    ensures ValidateCaseReference(ValidateCaseReference(v).value) == ValidateCaseReference(v)
  {
    CaseReferenceNormal(Strip(Upper(v)));
  }

  const CaseReferencePatternError := "String should match pattern '^\\d{4}/\\d{4,5}/[A-Z]+$'"

  /**
   * The `case_reference` field as declared: the field's pattern constraint
   * is checked on the raw text first, and only then does the after-mode
   * validator run.
   */
  function CaseReferenceField(v: string): (r: Result<string>)
  {
    if !IsCaseReference(v) then Err(CaseReferencePatternError) else ValidateCaseReference(v)
  }

  /** The declared field accepts exactly the texts that already have the pattern, unchanged. */
  lemma CaseReferenceFieldExact(v: string)
    ensures CaseReferenceField(v).Ok? <==> IsCaseReference(v)
    ensures CaseReferenceField(v).Ok? ==> CaseReferenceField(v).value == v
  {
    if IsCaseReference(v) {
      CaseReferenceNormal(v);
    }
  }

  /** A lower-case suffix is refused by the field even though the validator would upper-case it. */
  lemma CaseReferenceFieldRefusesLowerCase()
    ensures CaseReferenceField("2023/1234/p").Err?
    ensures ValidateCaseReference("2023/1234/p") == Ok("2023/1234/P")
  {
    var v := "2023/1234/p";
    assert !IsAsciiUpper(v[|v| - 1]);
    assert !SerialTail(v[5..], 4) by { assert v[5..][5..][0] == 'p'; }
    assert !SerialTail(v[5..], 5) by { assert v[5..][4] == '/'; assert !IsDigit(v[5..][..5][4]); }
    var u := Upper(v);
    assert u == "2023/1234/P";
    StripNoSpaceIdentity(u);
    assert u[5..][..4] == "1234";
    assert SerialTail(u[5..], 4);
  }

  /**
   * The normalise-then-check order the validator is written for: the
   * validator runs before the pattern. Every accepted value has the
   * pattern, and any text whose upper-cased, stripped form has the pattern
   * is accepted.
   */
  function CaseReferenceFieldNormalising(v: string): (r: Result<string>)
    ensures r.Ok? <==> IsCaseReference(Strip(Upper(v)))
    ensures r.Ok? ==> IsCaseReference(r.value) && r.value == Strip(Upper(v))
  {
    match ValidateCaseReference(v)
    case Err(e) => Err(e)
    case Ok(u) => if IsCaseReference(u) then Ok(u) else Err(CaseReferencePatternError)
  }

  /** The normalising order accepts the lower-case reference the declared field refuses. */
  lemma CaseReferenceFieldNormalisingAcceptsLowerCase()
    ensures CaseReferenceFieldNormalising("2023/1234/p") == Ok("2023/1234/P")
  {
    CaseReferenceFieldRefusesLowerCase();
  }

  // ---------------------------------------------------------------------
  // Postcode

  /** `v.upper().strip().replace(" ", "")` */
  function CompactPostcode(s: string): string
  {
    Replace(Strip(Upper(s)), " ", "")
  }

  /** The compacted text with one space put before its last three characters when it has at least five. */
  function NormalisePostcode(s: string): string
  {
    var u := CompactPostcode(s);
    if |u| >= 5 then u[..|u| - 3] + (" " + u[|u| - 3..]) else u
  }

  /** `validate_postcode` */
  function ValidatePostcode(v: Option<string>): (r: Option<string>)
    ensures v.None? <==> r.None?
  {
    match v
    case None => None
    case Some(s) => Some(NormalisePostcode(s))
  }

  predicate NotSpaceChar(c: char) { c != ' ' }

  predicate IsSpaceChar(c: char) { c == ' ' }

  /** What the compacted postcode is made of: upper-case-fixed characters, no spaces, no whitespace at either end. */
  lemma CompactShape(s: string)
    ensures All(CompactPostcode(s), NotSpaceChar)
    ensures All(CompactPostcode(s), UpperFixed)
    ensures var u := CompactPostcode(s); u == [] || (!IsSpace(u[0]) && !IsSpace(u[|u| - 1]))
  {
    var t := Strip(Upper(s));
    ReplaceCharByEmpty(t, ' ');
    assert All(Upper(s), UpperFixed);
    StripKeeps(Upper(s), UpperFixed);
    ReplaceCharKeeps(t, ' ', UpperFixed);
    StripShape(Upper(s));
    if t != [] {
      var n := |t|;
      if n == 1 {
        assert t == [t[0]];
      } else {
        assert t == [t[0]] + t[1..n - 1] + [t[n - 1]];
        ReplaceCharConcat([t[0]] + t[1..n - 1], [t[n - 1]], ' ');
        ReplaceCharConcat([t[0]], t[1..n - 1], ' ');
      }
    }
  }

  /** The normalised postcode is the compacted text, with exactly one space inserted three from the end when it has at least five characters. */
  lemma NormalisePostcodeShape(s: string)
    ensures var u := CompactPostcode(s);
      && All(u, NotSpaceChar)
      && (|u| >= 5 ==> NormalisePostcode(s) == u[..|u| - 3] + (" " + u[|u| - 3..]))
      && (|u| < 5 ==> NormalisePostcode(s) == u)
  {
    CompactShape(s);
  }

  lemma UpperOfFixed(w: string)
    requires All(w, UpperFixed)
    ensures Upper(w) == w
  {
  }

  /** `a + " " + b`, with `a` and `b` free of spaces, loses exactly the inserted space when spaces are removed. */
  lemma RemoveInsertedSpace(a: string, b: string)
    requires All(a, NotSpaceChar) && All(b, NotSpaceChar)
    ensures Replace(a + (" " + b), " ", "") == a + b
  {
    assert forall k :: 0 <= k < |a| ==> NotSpaceChar(a[k]);
    ReplaceCharAbsent(a, ' ');
    SpaceThenWord(b);
    ReplaceCharConcat(a, " " + b, ' ');
  }

  /** A space followed by a text without spaces loses just the space. */
  lemma SpaceThenWord(b: string)
    requires All(b, NotSpaceChar)
    ensures Replace(" " + b, " ", "") == b
  {
    var sp := " ";
    assert forall k :: 0 <= k < |b| ==> NotSpaceChar(b[k]);
    ReplaceCharAbsent(b, ' ');
    assert Replace(sp, [' '], []) == [] by {
      assert sp[..1] == [' '] && sp[1..] == [];
    }
    ReplaceCharConcat(sp, b, ' ');
  }

  /** Compacting the text with the inserted space gives back the compacted text. */
  lemma InsertedSpaceCompacts(u: string)
    requires |u| >= 5 && All(u, NotSpaceChar) && All(u, UpperFixed)
    requires !IsSpace(u[0]) && !IsSpace(u[|u| - 1])
    ensures CompactPostcode(u[..|u| - 3] + (" " + u[|u| - 3..])) == u
  {
    var a := u[..|u| - 3];
    var b := u[|u| - 3..];
    var w := a + (" " + b);
    assert a + b == u;
    assert All(a, UpperFixed) && All(b, UpperFixed) && All(" ", UpperFixed);
    AllAppend(" ", b, UpperFixed);
    AllAppend(a, " " + b, UpperFixed);
    UpperOfFixed(w);
    assert w[0] == u[0] && w[|w| - 1] == u[|u| - 1];
    StripNoSpaceIdentity(w);
    assert All(a, NotSpaceChar) && All(b, NotSpaceChar);
    RemoveInsertedSpace(a, b);
  }

  /** Normalising a normalised postcode changes nothing. */
  lemma NormalisePostcodeIdempotent(s: string)
    ensures NormalisePostcode(NormalisePostcode(s)) == NormalisePostcode(s)
  {
    var u := CompactPostcode(s);
    CompactShape(s);
    if |u| >= 5 {
      InsertedSpaceCompacts(u);
    } else {
      UpperOfFixed(u);
      StripNoSpaceIdentity(u);
      ReplaceCharAbsent(u, ' ');
      assert CompactPostcode(u) == u;
    }
  }

  /** `validate_postcode` is idempotent. */
  lemma ValidatePostcodeIdempotent(v: Option<string>)
    ensures ValidatePostcode(ValidatePostcode(v)) == ValidatePostcode(v)
  {
    if v.Some? {
      NormalisePostcodeIdempotent(v.value);
    }
  }

  predicate UpperOrDigit(c: char) { IsAsciiUpper(c) || IsDigit(c) }

  /** The outward code `[A-Z]{1,2}\d[A-Z\d]?`. */
  predicate IsOutwardCode(x: string)
  {
    && |x| >= 2 && IsAsciiUpper(x[0])
    && (|| (IsDigit(x[1]) && |x| <= 3 && (|x| == 3 ==> UpperOrDigit(x[2])))
        || (IsAsciiUpper(x[1]) && 3 <= |x| <= 4 && IsDigit(x[2]) && (|x| == 4 ==> UpperOrDigit(x[3]))))
  }

  /** The inward code `\d[A-Z]{2}`. */
  predicate IsInwardCode(y: string)
  {
    |y| == 3 && IsDigit(y[0]) && IsAsciiUpper(y[1]) && IsAsciiUpper(y[2])
  }

  /** The postcode pattern `^[A-Z]{1,2}\d[A-Z\d]?\s*\d[A-Z]{2}$`. */
  predicate IsPostcode(s: string)
  {
    && |s| >= 5
    && IsInwardCode(s[|s| - 3..])
    && IsOutwardCode(RStrip(s[..|s| - 3]))
  }

  const PostcodePatternError := "String should match pattern '^[A-Z]{1,2}\\d[A-Z\\d]?\\s*\\d[A-Z]{2}$'"

  /** The `postcode` field as declared: `None` passes, a text must have the pattern before the validator runs. */
  function PostcodeField(v: Option<string>): (r: Result<Option<string>>)
  {
    match v
    case None => Ok(None)
    case Some(s) => if IsPostcode(s) then Ok(ValidatePostcode(v)) else Err(PostcodePatternError)
  }

  /** A text with the postcode pattern is already upper-case and stripped. */
  lemma PostcodeNormal(s: string)
    requires IsPostcode(s)
    ensures Upper(s) == s && Strip(s) == s
  {
    var p := s[..|s| - 3];
    var x := RStrip(p);
    RStripShape(p);
    assert s == x + p[|x|..] + s[|s| - 3..];
    forall i | 0 <= i < |s| ensures UpperFixed(s[i]) {
      if i < |x| {
        assert s[i] == x[i];
      } else if i < |p| {
        assert s[i] == p[|x|..][i - |x|];
      } else {
        assert s[i] == s[|s| - 3..][i - |p|];
      }
    }
    UpperOfFixed(s);
    assert s[0] == x[0] && s[|s| - 1] == s[|s| - 3..][2];
    StripNoSpaceIdentity(s);
  }

  lemma CodesHoldNoSpace(x: string, y: string)
    requires IsOutwardCode(x) && IsInwardCode(y)
    ensures All(x, NotSpaceChar) && All(y, NotSpaceChar)
  {
  }

  /** Removing the spaces of `x + gap + y`, where only the gap holds spaces, leaves `x + y`. */
  lemma RemoveGap(x: string, gap: string, y: string)
    requires All(x, NotSpaceChar) && All(y, NotSpaceChar) && All(gap, IsSpaceChar)
    ensures Replace(x + gap + y, " ", "") == x + y
  {
    assert " " == [' '] && "" == [];
    ReplaceCharAbsent(x, ' ');
    ReplaceCharAbsent(y, ' ');
    GapOfSpaces(gap);
    ReplaceCharConcat(x, gap, ' ');
    assert Replace(x + gap, [' '], []) == x;
    ReplaceCharConcat(x + gap, y, ' ');
  }

  /** An accepted postcode whose gap is made of spaces comes out as outward code, one space, inward code. */
  lemma PostcodeFieldCanonical(s: string)
    requires IsPostcode(s)
    requires All(s[|RStrip(s[..|s| - 3])|..|s| - 3], IsSpaceChar)
    ensures PostcodeField(Some(s)) == Ok(Some(RStrip(s[..|s| - 3]) + (" " + s[|s| - 3..])))
  {
    var p := s[..|s| - 3];
    var x := RStrip(p);
    var y := s[|s| - 3..];
    RStripShape(p);
    var gap := s[|x|..|s| - 3];
    assert s == x + gap + y;
    PostcodeNormal(s);
    CodesHoldNoSpace(x, y);
    RemoveGap(x, gap, y);
    var u := CompactPostcode(s);
    assert u == x + y;
    assert u[..|u| - 3] == x && u[|u| - 3..] == y;
  }

  lemma {:induction false} GapOfSpaces(g: string)
    requires All(g, IsSpaceChar)
    ensures Replace(g, " ", "") == []
    decreases |g|
  {
    if g != [] {
      GapOfSpaces(g[1..]);
    }
  }

  // ---------------------------------------------------------------------
  // Request and match constraints

  datatype SearchQuery = SearchQuery(
    query: string,
    filters: Option<SearchFilters>,
    limit: int,
    includeRefused: bool,
    similarityThreshold: real)

  /** `SearchQuery(query=q)`: the declared defaults. */
  function DefaultSearchQuery(q: string): SearchQuery
  {
    SearchQuery(q, None, 10, false, 0.7)
  }

  /** The names of the fields whose constraints fail, in declaration order (empty when the request is valid). */
  function SearchQueryErrors(r: SearchQuery): (errs: seq<string>)
    ensures errs == [] <==> (10 <= |r.query| <= 2000 && 1 <= r.limit <= 50 && 0.0 <= r.similarityThreshold <= 1.0)
    ensures |errs| <= 3
  {
    (if 10 <= |r.query| <= 2000 then [] else ["query"])
    + (if 1 <= r.limit <= 50 then [] else ["limit"])
    + (if 0.0 <= r.similarityThreshold <= 1.0 then [] else ["similarity_threshold"])
  }

  /** The defaults satisfy the constraints whenever the query text has an allowed length. */
  lemma DefaultSearchQueryValid(q: string)
    ensures SearchQueryErrors(DefaultSearchQuery(q)) == [] <==> 10 <= |q| <= 2000
  {
  }

  /** `PrecedentMatch.similarity_score` must lie in [0, 1]. */
  predicate ValidSimilarity(score: real) { 0.0 <= score <= 1.0 }
}
