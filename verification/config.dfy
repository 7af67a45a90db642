/**
 * The application settings: the validators that run when the settings are
 * loaded, the properties derived from them, and the chunking defaults.
 */
module Config {
  import opened Common
  import opened PyStr

  // ---------------------------------------------------------------------
  // Defaults

  const DefaultAppEnv := "development"
  const DefaultEmbeddingModel := "text-embedding-3-large"
  const DefaultTemperature: real := 0.1
  const DefaultTargetWards := "Hampstead Town,Belsize,Frognal,Swiss Cottage"
  const DefaultCorsOrigins := "http://" + "localhost:3000"
  const DefaultChunkSize: nat := 500
  const DefaultChunkOverlap: nat := 50
  const DefaultMaxChunks: nat := 100

  // ---------------------------------------------------------------------
  // app_env

  const AllowedEnvs: seq<string> := ["development", "staging", "production", "test"]

  const InvalidAppEnv := "app_env must be one of: ['development', 'staging', 'production', 'test']"

  /** `validate_app_env`: the lowercased value, when it names a known environment. */
  function ValidateAppEnv(v: string): (r: Result<string>)
    ensures r.Ok? <==> Lower(v) in AllowedEnvs
    ensures r.Ok? ==> r.value == Lower(v)
  {
    if Lower(v) in AllowedEnvs then Ok(Lower(v)) else Err(InvalidAppEnv)
  }

  /** Lowercasing twice changes nothing. */
  lemma LowerIdempotent(s: string)
    ensures Lower(Lower(s)) == Lower(s)
  {
  }

  /** The validator accepts its own output unchanged. */
  lemma ValidateAppEnvIdempotent(v: string)
    requires ValidateAppEnv(v).Ok?
    ensures ValidateAppEnv(ValidateAppEnv(v).value) == ValidateAppEnv(v)
  {
    LowerIdempotent(v);
  }

  /** `is_production` */
  predicate IsProduction(appEnv: string)
  {
    Lower(appEnv) == "production"
  }

  // ---------------------------------------------------------------------
  // cors_origins

  /** A character of the class `[^\s/$.?#]`. */
  predicate HostStart(c: char)
  {
    !IsSpace(c) && c !in "/$.?#"
  }

  /** What follows the scheme: one host-start character, any character but a newline, then no whitespace. */
  predicate UrlRest(rest: string)
  {
    |rest| >= 2 && HostStart(rest[0]) && rest[1] != '\n' && NoSpace(rest[2..])
  }

  /** A full match of `^https?://[^\s/$.?#].[^\s]*$`. */
  predicate IsCorsUrl(o: string)
  {
    if StartsWith(o, "https://") then UrlRest(o[8..])
    else StartsWith(o, "http://") && UrlRest(o[7..])
  }

  predicate AcceptableOrigin(o: string)
  {
    o == "*" || IsCorsUrl(o)
  }

  /** `cors_origins_list` (and the list the validator checks): the comma-separated entries, each stripped. */
  function OriginsList(v: string): (r: seq<string>)
    ensures |r| >= 1
  {
    StripAll(SplitChar(v, ','))
  }

  /** The first entry that is not acceptable, if any. */
  function FirstBadOrigin(os: seq<string>): (r: Option<nat>)
    ensures r.Some? ==> r.value < |os| && !AcceptableOrigin(os[r.value])
    ensures r.Some? ==> forall j :: 0 <= j < r.value ==> AcceptableOrigin(os[j])
    ensures r.None? ==> forall j :: 0 <= j < |os| ==> AcceptableOrigin(os[j])
  {
    if os == [] then None
    else if !AcceptableOrigin(os[0]) then Some(0)
    else match FirstBadOrigin(os[1..])
      case None => None
      case Some(k) => Some(k + 1)
  }

  /** `validate_cors_origins`: the value unchanged when every entry is `*` or an http(s) URL; else the first bad entry. */
  function ValidateCorsOrigins(v: string): (r: Result<string>)
    ensures r.Ok? ==> r.value == v
    ensures r.Ok? <==> forall j :: 0 <= j < |OriginsList(v)| ==> AcceptableOrigin(OriginsList(v)[j])
  {
    var os := OriginsList(v);
    match FirstBadOrigin(os)
    case None => Ok(v)
    case Some(k) => Err("Invalid CORS origin URL: " + os[k])
  }

  /** The raw pieces rejoin at the commas to the value; each entry is its piece stripped and holds no comma. */
  lemma OriginsListShape(v: string)
    ensures Join(SplitChar(v, ','), ",") == v
    ensures forall i :: 0 <= i < |OriginsList(v)| ==> OriginsList(v)[i] == Strip(SplitChar(v, ',')[i])
    ensures forall i :: 0 <= i < |OriginsList(v)| ==> ',' !in OriginsList(v)[i]
  {
    SplitCharRoundTrip(v, ',');
    var ps := SplitChar(v, ',');
    forall i | 0 <= i < |ps| ensures ',' !in Strip(ps[i])
    {
      StripKeeps(ps[i], c => c != ',');
    }
  }

  /** `target_wards_list`: the same splitting as the origins. */
  function TargetWardsList(v: string): (r: seq<string>)
    ensures r == OriginsList(v)
  {
    StripAll(SplitChar(v, ','))
  }

  // ---------------------------------------------------------------------
  // openai_temperature and the embedding model

  const InvalidTemperature := "openai_temperature must be between 0.0 and 2.0"

  function ValidateTemperature(v: real): (r: Result<real>)
    ensures r.Ok? <==> 0.0 <= v <= 2.0
    ensures r.Ok? ==> r.value == v
  {
    if 0.0 <= v <= 2.0 then Ok(v) else Err(InvalidTemperature)
  }

  /** `embedding_dimensions`: 3072 for the large model, 1536 for the small and ada models and for any other. */
  function EmbeddingDimensions(model: string): (d: nat)
    ensures model == "text-embedding-3-large" ==> d == 3072
    ensures model != "text-embedding-3-large" ==> d == 1536
  {
    if model == "text-embedding-3-large" then 3072
    else if model == "text-embedding-3-small" then 1536
    else if model == "text-embedding-ada-002" then 1536
    else 1536
  }

  // ---------------------------------------------------------------------
  // Loading

  /** The settings the model reads. */
  datatype Settings = Settings(
    appEnv: string,
    corsOrigins: string,
    openaiTemperature: real,
    openaiEmbeddingModel: string,
    targetWards: string,
    chunkSize: int,
    chunkOverlap: int,
    maxChunksPerDocument: int)

  /** The settings when the environment sets none of these fields. */
  const Defaults := Settings(DefaultAppEnv, DefaultCorsOrigins, DefaultTemperature, DefaultEmbeddingModel,
                             DefaultTargetWards, DefaultChunkSize, DefaultChunkOverlap, DefaultMaxChunks)

  /** Runs the three field validators; the stored `app_env` is the lowercased one. */
  function LoadSettings(raw: Settings): (r: Result<Settings>)
    ensures r.Ok? <==> ValidateAppEnv(raw.appEnv).Ok? && ValidateCorsOrigins(raw.corsOrigins).Ok?
                       && ValidateTemperature(raw.openaiTemperature).Ok?
    ensures r.Ok? ==> r.value == raw.(appEnv := Lower(raw.appEnv))
  {
    match (ValidateAppEnv(raw.appEnv), ValidateCorsOrigins(raw.corsOrigins), ValidateTemperature(raw.openaiTemperature))
    case (Ok(env), Ok(_), Ok(_)) => Ok(raw.(appEnv := env))
    case (Err(e), _, _) => Err(e)
    case (_, Err(e), _) => Err(e)
    case (_, _, Err(e)) => Err(e)
  }

  /** Visible ASCII characters are not whitespace. */
  lemma VisibleNoSpace(s: string)
    requires forall i :: 0 <= i < |s| ==> '!' <= s[i] <= '~'
    ensures NoSpace(s)
  {
  }

  /** A text without the separator is one piece. */
  lemma {:induction false} SplitCharAbsent(s: string, sep: char)
    requires sep !in s
    ensures SplitChar(s, sep) == [s]
    decreases |s|
  {
    if s != [] {
      assert sep !in s[1..];
      SplitCharAbsent(s[1..], sep);
      assert [s[0]] + s[1..] == s;
    }
  }

  /** The default origin is an http URL. */
  lemma DefaultOriginAccepted()
    ensures IsCorsUrl(DefaultCorsOrigins)
  {
    var v := DefaultCorsOrigins;
    assert v[..7] == "http://";
    assert v[4] != "https://"[4];
    assert v[7..] == "localhost:3000";
    VisibleNoSpace(v[7..][2..]);
  }

  /** An acceptable single origin without commas or surrounding whitespace passes unchanged. */
  lemma SingleOriginValid(v: string)
    requires ',' !in v && v != [] && !IsSpace(v[0]) && !IsSpace(v[|v| - 1]) && AcceptableOrigin(v)
    ensures ValidateCorsOrigins(v) == Ok(v)
  {
    SplitCharAbsent(v, ',');
    StripNoSpaceIdentity(v);
    assert OriginsList(v) == [v];
  }

  /** The default origins pass the origin validator. */
  lemma DefaultOriginsValid()
    ensures ValidateCorsOrigins(DefaultCorsOrigins) == Ok(DefaultCorsOrigins)
  {
    DefaultOriginAccepted();
    var v := DefaultCorsOrigins;
    assert forall i :: 0 <= i < |v| ==> v[i] != ',';
    SingleOriginValid(v);
  }

  /** The default environment passes its validator unchanged. */
  lemma DefaultAppEnvValid()
    ensures ValidateAppEnv(DefaultAppEnv) == Ok(DefaultAppEnv)
  {
    assert Lower(DefaultAppEnv) == DefaultAppEnv;
  }

  /** The defaults pass every validator and load unchanged: chunks of 500 tokens, overlap 50, at most 100 per document. */
  lemma DefaultsLoad()
    ensures LoadSettings(Defaults) == Ok(Defaults)
    ensures Defaults.chunkSize == 500 && Defaults.chunkOverlap == 50 && Defaults.maxChunksPerDocument == 100
    ensures EmbeddingDimensions(Defaults.openaiEmbeddingModel) == 3072
  {
    DefaultOriginsValid();
    DefaultAppEnvValid();
  }
}
