/**
 * The capability registry: settings read once from the environment, one
 * predicate per integration saying whether it is configured, and a status
 * snapshot built from them.
 */
module Config {
  import Strings

  /** The process environment (after the `.env` file is loaded). */
  type Environment = map<string, string>

  /** `value` is what reading `key` with fallback `default` yields: the set value, else the default. */
  predicate ReadsSetting(env: Environment, key: string, default: string, value: string) {
    (key in env ==> value == env[key]) && (key !in env ==> value == default)
  }

  /** `os.getenv(key, default)`. */
  function Getenv(env: Environment, key: string, default: string): (value: string)
    ensures ReadsSetting(env, key, default, value)
    ensures value == "" ==> key in env || default == ""
  {
    if key in env then env[key] else default
  }

  /** `raw.lower() == "true"`: demo mode is on exactly for the four letters of "true" in any case. */
  function ParseDemoMode(raw: string): (on: bool)
    ensures on <==> |raw| == 4 && forall i :: 0 <= i < 4 ==> raw[i] == "true"[i] || raw[i] == "TRUE"[i]
  {
    var lower := Strings.Lower(raw);
    if |raw| == 4 then
      forall i | 0 <= i < 4 ensures lower[i] == "true"[i] <==> raw[i] == "true"[i] || raw[i] == "TRUE"[i] {
        Strings.LowerCharInverse(raw[i], "true"[i]);
      }
      lower == "true"
    else
      lower == "true"
  }

  /** The class attributes of `Config`. */
  datatype Settings = Settings(
    demoMode: bool,
    openAiApiKey: string,
    wpUrl: string,
    wpUser: string,
    wpAppPassword: string,
    smtpEmail: string,
    smtpPassword: string,
    gmailCredentialsPath: string,
    linkedinClientId: string,
    linkedinClientSecret: string,
    linkedinAccessToken: string,
    twitterApiKey: string,
    twitterApiSecret: string,
    twitterAccessToken: string,
    twitterAccessTokenSecret: string)

  /** The settings as the class body reads them from the environment, with their defaults. */
  function Load(env: Environment): (c: Settings)
    ensures "DEMO_MODE" !in env ==> c.demoMode
    ensures "DEMO_MODE" in env ==> (c.demoMode <==> Strings.Lower(env["DEMO_MODE"]) == "true")
    ensures ReadsSetting(env, "OPENAI_API_KEY", "", c.openAiApiKey)
    ensures ReadsSetting(env, "WP_URL", "", c.wpUrl)
    ensures ReadsSetting(env, "WP_USER", "", c.wpUser)
    ensures ReadsSetting(env, "WP_APP_PASSWORD", "", c.wpAppPassword)
    ensures ReadsSetting(env, "SMTP_EMAIL", "", c.smtpEmail)
    ensures ReadsSetting(env, "SMTP_PASSWORD", "", c.smtpPassword)
    ensures ReadsSetting(env, "GMAIL_CREDENTIALS_PATH", "credentials.json", c.gmailCredentialsPath)
    ensures ReadsSetting(env, "LINKEDIN_CLIENT_ID", "", c.linkedinClientId)
    ensures ReadsSetting(env, "LINKEDIN_CLIENT_SECRET", "", c.linkedinClientSecret)
    ensures ReadsSetting(env, "LINKEDIN_ACCESS_TOKEN", "", c.linkedinAccessToken)
    ensures ReadsSetting(env, "TWITTER_API_KEY", "", c.twitterApiKey)
    ensures ReadsSetting(env, "TWITTER_API_SECRET", "", c.twitterApiSecret)
    ensures ReadsSetting(env, "TWITTER_ACCESS_TOKEN", "", c.twitterAccessToken)
    ensures ReadsSetting(env, "TWITTER_ACCESS_TOKEN_SECRET", "", c.twitterAccessTokenSecret)
  {
    Settings(
      demoMode := ParseDemoMode(Getenv(env, "DEMO_MODE", "true")),
      openAiApiKey := Getenv(env, "OPENAI_API_KEY", ""),
      wpUrl := Getenv(env, "WP_URL", ""),
      wpUser := Getenv(env, "WP_USER", ""),
      wpAppPassword := Getenv(env, "WP_APP_PASSWORD", ""),
      smtpEmail := Getenv(env, "SMTP_EMAIL", ""),
      smtpPassword := Getenv(env, "SMTP_PASSWORD", ""),
      gmailCredentialsPath := Getenv(env, "GMAIL_CREDENTIALS_PATH", "credentials.json"),
      linkedinClientId := Getenv(env, "LINKEDIN_CLIENT_ID", ""),
      linkedinClientSecret := Getenv(env, "LINKEDIN_CLIENT_SECRET", ""),
      linkedinAccessToken := Getenv(env, "LINKEDIN_ACCESS_TOKEN", ""),
      twitterApiKey := Getenv(env, "TWITTER_API_KEY", ""),
      twitterApiSecret := Getenv(env, "TWITTER_API_SECRET", ""),
      twitterAccessToken := Getenv(env, "TWITTER_ACCESS_TOKEN", ""),
      twitterAccessTokenSecret := Getenv(env, "TWITTER_ACCESS_TOKEN_SECRET", ""))
  }

  /** The environment variables the settings are read from. */
  const SettingKeys: set<string> := {
    "DEMO_MODE", "OPENAI_API_KEY", "WP_URL", "WP_USER", "WP_APP_PASSWORD",
    "SMTP_EMAIL", "SMTP_PASSWORD", "GMAIL_CREDENTIALS_PATH",
    "LINKEDIN_CLIENT_ID", "LINKEDIN_CLIENT_SECRET", "LINKEDIN_ACCESS_TOKEN",
    "TWITTER_API_KEY", "TWITTER_API_SECRET", "TWITTER_ACCESS_TOKEN", "TWITTER_ACCESS_TOKEN_SECRET"}

  /** Two environments that agree on the setting keys give the same settings. */
  lemma LoadReadsOnlySettingKeys(env1: Environment, env2: Environment)
    requires forall k :: k in SettingKeys ==> (k in env1 <==> k in env2)
    requires forall k :: k in SettingKeys && k in env1 && k in env2 ==> env1[k] == env2[k]
    ensures Load(env1) == Load(env2)
  {
  }

  /** Python's `all([...])` over strings: every one is non-empty. */
  predicate AllTruthy(values: seq<string>) {
    forall i :: 0 <= i < |values| ==> values[i] != ""
  }

  /** `bool(OPENAI_API_KEY and OPENAI_API_KEY.startswith("sk-"))`. */
  function IsOpenAiConfigured(c: Settings): (r: bool)
    ensures r <==> |c.openAiApiKey| >= 3 && c.openAiApiKey[0] == 's' && c.openAiApiKey[1] == 'k' && c.openAiApiKey[2] == '-'
  {
    c.openAiApiKey != "" && Strings.StartsWith(c.openAiApiKey, "sk-")
  }

  function IsWordPressConfigured(c: Settings): (r: bool)
    ensures r <==> c.wpUrl != "" && c.wpUser != "" && c.wpAppPassword != ""
  {
    var values := [c.wpUrl, c.wpUser, c.wpAppPassword];
    assert values[0] == c.wpUrl && values[1] == c.wpUser && values[2] == c.wpAppPassword;
    AllTruthy(values)
  }

  function IsSmtpConfigured(c: Settings): (r: bool)
    ensures r <==> c.smtpEmail != "" && c.smtpPassword != ""
  {
    var values := [c.smtpEmail, c.smtpPassword];
    assert values[0] == c.smtpEmail && values[1] == c.smtpPassword;
    AllTruthy(values)
  }

  /** `bool(LINKEDIN_ACCESS_TOKEN)`: the client id and secret play no part. */
  function IsLinkedInConfigured(c: Settings): (r: bool)
    ensures r <==> c.linkedinAccessToken != ""
  {
    var values := [c.linkedinAccessToken];
    assert values[0] == c.linkedinAccessToken;
    AllTruthy(values)
  }

  /** Changing the LinkedIn client id and secret never changes whether LinkedIn is configured. */
  lemma LinkedInIgnoresClientCredentials(c: Settings, id: string, secret: string)
    ensures IsLinkedInConfigured(c.(linkedinClientId := id, linkedinClientSecret := secret)) == IsLinkedInConfigured(c)
  {
  }

  function IsTwitterConfigured(c: Settings): (r: bool)
    ensures r <==> c.twitterApiKey != "" && c.twitterApiSecret != "" && c.twitterAccessToken != "" && c.twitterAccessTokenSecret != ""
  {
    var values := [c.twitterApiKey, c.twitterApiSecret, c.twitterAccessToken, c.twitterAccessTokenSecret];
    assert values[0] == c.twitterApiKey && values[1] == c.twitterApiSecret;
    assert values[2] == c.twitterAccessToken && values[3] == c.twitterAccessTokenSecret;
    AllTruthy(values)
  }

  /** The names of the entries of the status snapshot. */
  const StatusKeys: set<string> := {"demo_mode", "openai", "wordpress", "smtp", "linkedin", "twitter"}

  /** `get_status`: exactly the six entries, each the flag or predicate of that name. */
  function GetStatus(c: Settings): (r: map<string, bool>)
    ensures r.Keys == StatusKeys
    ensures r["demo_mode"] == c.demoMode
    ensures r["openai"] == IsOpenAiConfigured(c) && r["wordpress"] == IsWordPressConfigured(c)
    ensures r["smtp"] == IsSmtpConfigured(c) && r["linkedin"] == IsLinkedInConfigured(c)
    ensures r["twitter"] == IsTwitterConfigured(c)
  {
    map[
      "demo_mode" := c.demoMode,
      "openai" := IsOpenAiConfigured(c),
      "wordpress" := IsWordPressConfigured(c),
      "smtp" := IsSmtpConfigured(c),
      "linkedin" := IsLinkedInConfigured(c),
      "twitter" := IsTwitterConfigured(c)]
  }
}
