/** The application settings: the API and login addresses, the deployment
    environment, the token lifetime and refresh margin, and the page sizes. Values
    come from the environment with the defaults below; reading the environment and
    the `.env` file is not modelled, a `Settings` value stands for its outcome. */
module Settings {
  import opened Wrappers
  import opened Timestamps

  datatype Settings = Settings(
    apiBaseUrl: string,
    authUrl: string,
    authTestUrl: string,
    environment: string,
    tgtValidityHours: int,
    tgtRefreshMarginMinutes: int,
    defaultPageSize: int,
    maxPageSize: int)

  const ProductionAuthUrl: string := "https://giris.epias.com.tr"
  const TestAuthUrl: string := "https://giris-prp.epias.com.tr"

  /** The settings when no environment variable overrides a field. */
  const Defaults: Settings := Settings(
    "https://seffaflik.epias.com.tr/electricity-service/v1",
    ProductionAuthUrl,
    TestAuthUrl,
    "production",
    2,
    10,
    100,
    1000)

  /** The environments the validator lets through. */
  const AllowedEnvironments: seq<string> := ["production", "test", "development"]

  const MicrosPerMinute: int := 60_000_000

  /** The ENVIRONMENT validator: the value passes unchanged when it is one of the
      three allowed names, and anything else raises ValueError. */
  function ValidateEnvironment(v: string): (r: Result<string>)
    ensures r.Ok? <==> (v == "production" || v == "test" || v == "development")
    ensures r.Ok? ==> r.value == v
    ensures r.Err? ==> r.error == ValueError
  {
    if v in AllowedEnvironments then Ok(v) else Err(ValueError)
  }

  /** Building the settings object: the environment validator is the only check, and
      pydantic reports its ValueError as a ValidationError. */
  function Load(s: Settings): (r: Result<Settings>)
    ensures r.Ok? <==> ValidateEnvironment(s.environment).Ok?
    ensures r.Ok? ==> r.value == s
    ensures r.Err? ==> r.error == ValidationError
  {
    match ValidateEnvironment(s.environment)
    case Ok(env) => Ok(s.(environment := env))
    case Err(_) => Err(ValidationError)
  }

  /** `auth_url`: the test login address in the "test" environment, the production
      one otherwise. */
  function AuthUrl(s: Settings): (u: string)
    ensures u == s.authTestUrl || u == s.authUrl
  {
    if s.environment == "test" then s.authTestUrl else s.authUrl
  }

  /** `tgt_validity_timedelta`, in microseconds. */
  function TgtValidity(s: Settings): (d: int)
    ensures s.tgtValidityHours >= 0 ==> d >= 0
  {
    s.tgtValidityHours * MicrosPerHour
  }

  /** `tgt_refresh_margin`, in microseconds. */
  function TgtRefreshMargin(s: Settings): (d: int)
    ensures s.tgtRefreshMarginMinutes >= 0 ==> d >= 0
  {
    s.tgtRefreshMarginMinutes * MicrosPerMinute
  }

  /** Whenever the two login addresses differ, the test address is chosen exactly in
      the "test" environment; the production and development environments share the
      production address. */
  lemma AuthUrlChoice(s: Settings)
    requires s.authUrl != s.authTestUrl
    requires Load(s).Ok?
    ensures AuthUrl(s) == s.authTestUrl <==> s.environment == "test"
    ensures AuthUrl(s) == s.authUrl <==> (s.environment == "production" || s.environment == "development")
  {
  }

  /** The defaults load, log in at the production address, keep a token for two
      hours (7200 seconds) with a ten-minute (600 second) refresh margin, and ask for
      pages of 100 rows, within the 1000-row maximum. */
  lemma DefaultsHold()
    ensures Load(Defaults) == Ok(Defaults)
    ensures AuthUrl(Defaults) == ProductionAuthUrl
    ensures TgtValidity(Defaults) == 7200 * 1_000_000
    ensures TgtRefreshMargin(Defaults) == 600 * 1_000_000
    ensures TgtRefreshMargin(Defaults) < TgtValidity(Defaults)
    ensures 0 < Defaults.defaultPageSize <= Defaults.maxPageSize
  {
    assert Defaults.environment in AllowedEnvironments;
  }

  /** A margin shorter than the validity leaves a positive time before the refresh. */
  lemma {:induction false} MarginWithinValidity(s: Settings)
    requires 0 <= s.tgtRefreshMarginMinutes < 60 * s.tgtValidityHours
    ensures 0 <= TgtRefreshMargin(s) < TgtValidity(s)
  {
    calc {
      TgtRefreshMargin(s);
      s.tgtRefreshMarginMinutes * MicrosPerMinute;
    <  { assert s.tgtRefreshMarginMinutes < 60 * s.tgtValidityHours; }
      (60 * s.tgtValidityHours) * MicrosPerMinute;
      s.tgtValidityHours * (60 * MicrosPerMinute);
      TgtValidity(s);
    }
  }
}
