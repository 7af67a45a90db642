/**
 * Accounts: the subscription tiers and their limits, the usage check, the
 * permission scopes a token carries, registration and sign-in outcomes,
 * and the API's `Authorization: Bearer` parsing and role gates.
 *
 * The database and the password hashing are parameters: what the lookup
 * found, whether the insert succeeded, whether the password matched.
 */
module Auth {
  import opened Common
  import opened PyStr

  datatype UserRole = Admin | Professional | Homeowner | Viewer

  datatype SubscriptionTier = FreeTier | StarterTier | ProfessionalTier | EnterpriseTier

  datatype SubscriptionLimits = SubscriptionLimits(
    searchesPerMonth: int, analysesPerMonth: int, exportsPerMonth: int, savedCases: int,
    teamMembers: int, apiAccess: bool, prioritySupport: bool, customBranding: bool)

  /** The limits of each tier; every tier has an entry. */
  function Limits(t: SubscriptionTier): SubscriptionLimits
  {
    match t
    case FreeTier => SubscriptionLimits(10, 3, 1, 10, 1, false, false, false)
    case StarterTier => SubscriptionLimits(100, 25, 10, 100, 1, false, false, false)
    case ProfessionalTier => SubscriptionLimits(500, 100, 50, 500, 5, true, true, false)
    case EnterpriseTier => SubscriptionLimits(999999, 999999, 999999, 999999, 999999, true, true, true)
  }

  datatype User = User(
    id: string, email: string, fullName: string, company: Option<string>, jobTitle: Option<string>,
    phone: Option<string>, role: UserRole, tier: SubscriptionTier, isActive: bool, isVerified: bool,
    createdAt: int, lastLogin: Option<int>, teamId: Option<string>,
    searchesThisMonth: int, analysesThisMonth: int, exportsThisMonth: int)

  // ---------------------------------------------------------------------
  // Usage limits

  /** The answer of `check_usage_limit`: allowed, current usage, limit. */
  datatype UsageCheck = UsageCheck(allowed: bool, current: int, limit: int)

  /** The usage counter and the tier's limit for a usage type, when the type is one the tiers limit. */
  function Usage(user: User, limits: SubscriptionLimits, limitType: string): Option<(int, int)>
  {
    if limitType == "searches" then Some((user.searchesThisMonth, limits.searchesPerMonth))
    else if limitType == "analyses" then Some((user.analysesThisMonth, limits.analysesPerMonth))
    else if limitType == "exports" then Some((user.exportsThisMonth, limits.exportsPerMonth))
    else None
  }

  /** `check_usage_limit`: within the limit exactly when the month's count is below it; unknown types pass. */
  function CheckUsageLimit(user: User, limitType: string): (r: UsageCheck)
    ensures limitType == "searches" ==>
              r.current == user.searchesThisMonth && r.limit == Limits(user.tier).searchesPerMonth
    ensures limitType == "analyses" ==>
              r.current == user.analysesThisMonth && r.limit == Limits(user.tier).analysesPerMonth
    ensures limitType == "exports" ==>
              r.current == user.exportsThisMonth && r.limit == Limits(user.tier).exportsPerMonth
    ensures limitType in {"searches", "analyses", "exports"} ==> (r.allowed <==> r.current < r.limit)
    ensures limitType !in {"searches", "analyses", "exports"} ==> r == UsageCheck(true, 0, 0)
  {
    match Usage(user, Limits(user.tier), limitType)
    case Some((current, limit)) => UsageCheck(current < limit, current, limit)
    case None => UsageCheck(true, 0, 0)
  }

  /** `increment_usage` as its effect on the stored user: one more use of a known type; unknown types are ignored. */
  function IncrementUsage(user: User, usageType: string): (r: User)
    ensures usageType !in {"searches", "analyses", "exports"} ==> r == user
  {
    if usageType == "searches" then user.(searchesThisMonth := user.searchesThisMonth + 1)
    else if usageType == "analyses" then user.(analysesThisMonth := user.analysesThisMonth + 1)
    else if usageType == "exports" then user.(exportsThisMonth := user.exportsThisMonth + 1)
    else user
  }

  /**
   * A use raises what the check reports for that type by one and leaves the
   * other types alone, so a user at the limit is refused from then on.
   */
  lemma IncrementThenCheck(user: User, usageType: string, other: string)
    requires usageType in {"searches", "analyses", "exports"} && other != usageType
    ensures CheckUsageLimit(IncrementUsage(user, usageType), usageType).current == CheckUsageLimit(user, usageType).current + 1
    ensures CheckUsageLimit(IncrementUsage(user, usageType), other) == CheckUsageLimit(user, other)
    ensures !CheckUsageLimit(user, usageType).allowed ==> !CheckUsageLimit(IncrementUsage(user, usageType), usageType).allowed
  {
  }

  // ---------------------------------------------------------------------
  // Scopes

  /** `_get_user_scopes`: "read", then "write" and "export" for admins and professionals, "admin", then "api". */
  function UserScopes(user: User): (r: seq<string>)
    ensures |r| >= 1 && r[0] == "read"
    ensures ("write" in r <==> user.role in {Admin, Professional}) && ("export" in r <==> user.role in {Admin, Professional})
    ensures "admin" in r <==> user.role == Admin
    ensures "api" in r <==> user.tier in {ProfessionalTier, EnterpriseTier}
    ensures forall i, j :: 0 <= i < j < |r| ==> r[i] != r[j]
    ensures forall s :: s in r ==> s in ["read", "write", "export", "admin", "api"]
  {
    var scopes := ["read"];
    var scopes := if user.role in {Admin, Professional} then scopes + ["write", "export"] else scopes;
    var scopes := if user.role == Admin then scopes + ["admin"] else scopes;
    if Limits(user.tier).apiAccess then scopes + ["api"] else scopes
  }

  // ---------------------------------------------------------------------
  // Registration and sign-in

  datatype UserCreate = UserCreate(email: string, password: string, fullName: string, company: Option<string>,
                                   jobTitle: Option<string>, phone: Option<string>, acceptedTerms: bool)

  /** What saving the new row did: there is no database, or the insert returned rows, or it returned none. */
  datatype InsertReply = NoDatabase | Inserted | InsertEmpty

  const TermsRequired := "You must accept the terms of service"
  const EmailTaken := "An account with this email already exists"
  const CreateFailed := "Failed to create user"

  /**
   * `register_user`, given whether a user with the email exists, the reply
   * of the insert, the new id and the clock. The terms are checked before
   * anything is looked up.
   */
  function RegisterUser(data: UserCreate, emailExists: bool, insert: InsertReply, id: string, now: int): (r: Result<User>)
    ensures !data.acceptedTerms ==> r == Err(TermsRequired)
    ensures data.acceptedTerms && emailExists ==> r == Err(EmailTaken)
    ensures r.Ok? <==> data.acceptedTerms && !emailExists && insert != InsertEmpty
    ensures r.Ok? ==> var u := r.value;
              && u.id == id && u.email == data.email && u.fullName == data.fullName
              && u.role == Homeowner && u.tier == FreeTier && u.isActive && !u.isVerified
              && u.createdAt == now && u.lastLogin.None? && u.teamId.None?
              && u.searchesThisMonth == 0 && u.analysesThisMonth == 0 && u.exportsThisMonth == 0
  {
    if !data.acceptedTerms then Err(TermsRequired)
    else if emailExists then Err(EmailTaken)
    else if insert == InsertEmpty then Err(CreateFailed)
    else Ok(User(id, data.email, data.fullName, data.company, data.jobTitle, data.phone, Homeowner, FreeTier,
                 true, false, now, None, None, 0, 0, 0))
  }

  const InvalidCredentials := "Invalid email or password"
  const Deactivated := "Account is deactivated"

  /**
   * `authenticate`, given the stored user found for the email (if any) and
   * whether the password matched its hash; on success, the scopes the new
   * tokens carry.
   */
  function Authenticate(found: Option<User>, passwordMatches: bool): (r: Result<seq<string>>)
    ensures found.None? ==> r == Err(InvalidCredentials)
    ensures found.Some? && !passwordMatches ==> r == Err(InvalidCredentials)
    ensures r.Ok? <==> found.Some? && passwordMatches && found.value.isActive
    ensures r.Ok? ==> r.value == UserScopes(found.value)
  {
    if found.None? then Err(InvalidCredentials)
    else if !passwordMatches then Err(InvalidCredentials)
    else if !found.value.isActive then Err(Deactivated)
    else Ok(UserScopes(found.value))
  }

  /** A caller cannot tell an unknown email from a wrong password: both answers are the same. */
  lemma AuthenticateHidesAccounts(u: User, passwordMatches: bool)
    ensures Authenticate(None, passwordMatches) == Authenticate(Some(u), false)
  {
  }

  // ---------------------------------------------------------------------
  // The API's authentication dependencies

  /**
   * The token of an `Authorization` header: the header must split at
   * whitespace into exactly two parts, the first "bearer" in any case
   * (section 2.1 of RFC 6750). A missing or empty header gives `None`.
   */
  function BearerToken(authorization: Option<string>): (r: Option<string>)
    ensures r.Some? <==> authorization.Some? && |Words(authorization.value)| == 2
                         && Lower(Words(authorization.value)[0]) == "bearer"
    ensures r.Some? ==> r.value == Words(authorization.value)[1]
  {
    if authorization.None? || authorization.value == [] then None
    else
      var parts := Words(authorization.value);
      if |parts| != 2 || Lower(parts[0]) != "bearer" then None else Some(parts[1])
  }

  /** A header built as the scheme, one space and the token gives the token back. */
  lemma BearerRoundTrip(scheme: string, token: string)
    requires Lower(scheme) == "bearer" && token != [] && NoSpace(token)
    ensures BearerToken(Some(scheme + " " + token)) == Some(token)
  {
    assert NoSpace(scheme) by {
      forall i | 0 <= i < |scheme| ensures !IsSpace(scheme[i]) {
        assert Lower(scheme)[i] == LowerChar(scheme[i]);
      }
    }
    assert AreWords([token]);
    assert AreWords([scheme, token]);
    WordsJoinSpace([scheme, token]);
    assert JoinSpace([scheme, token]) == scheme + " " + token;
  }

  /** `get_current_user`: the user the token resolves to; `resolve` is the token check and the lookup. */
  function CurrentUser(authorization: Option<string>, resolve: string -> Option<User>): (r: Option<User>)
    ensures BearerToken(authorization).None? ==> r.None?
    ensures BearerToken(authorization).Some? ==> r == resolve(BearerToken(authorization).value)
  {
    match BearerToken(authorization)
    case None => None
    case Some(token) => resolve(token)
  }

  /** What a dependency gives the handler: the user, or the HTTP error it raises. */
  datatype Gate = Pass(user: User) | Deny(status: int, detail: string, bearerChallenge: bool)

  /** `require_auth`: 401 with a `WWW-Authenticate: Bearer` challenge when nobody is signed in. */
  function RequireAuth(user: Option<User>): (r: Gate)
    ensures user.Some? <==> r.Pass?
    ensures r.Pass? ==> r.user == user.value
    ensures r.Deny? ==> r.status == 401 && r.bearerChallenge
  {
    if user.None? then Deny(401, "Authentication required", true) else Pass(user.value)
  }

  /** `require_admin`: signed in and an admin, else 401 or 403. */
  function RequireAdmin(user: Option<User>): (r: Gate)
    ensures r.Pass? <==> user.Some? && user.value.role == Admin
    ensures user.None? ==> r == RequireAuth(user)
    ensures user.Some? && !r.Pass? ==> r.Deny? && r.status == 403 && !r.bearerChallenge
  {
    match RequireAuth(user)
    case Deny(s, d, c) => Deny(s, d, c)
    case Pass(u) => if u.role != Admin then Deny(403, "Admin access required", false) else Pass(u)
  }

  /** `require_professional`: signed in as an admin or a professional, else 401 or 403. */
  function RequireProfessional(user: Option<User>): (r: Gate)
    ensures r.Pass? <==> user.Some? && user.value.role in {Admin, Professional}
    ensures user.None? ==> r == RequireAuth(user)
    ensures user.Some? && !r.Pass? ==> r.Deny? && r.status == 403 && !r.bearerChallenge
  {
    match RequireAuth(user)
    case Deny(s, d, c) => Deny(s, d, c)
    case Pass(u) => if u.role !in {Admin, Professional} then Deny(403, "Professional access required", false) else Pass(u)
  }

  /** The gates are nested: whoever passes the admin gate passes the professional gate, and whoever passes that is signed in. */
  lemma GatesNested(user: Option<User>)
    ensures RequireAdmin(user).Pass? ==> RequireProfessional(user).Pass?
    ensures RequireProfessional(user).Pass? ==> RequireAuth(user).Pass?
    ensures RequireProfessional(user).Pass? ==> "write" in UserScopes(user.value)
  {
  }
}
