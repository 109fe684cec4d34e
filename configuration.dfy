/** Relay configuration: the `Config` record with its defaults, the boolean
    parser for USE_WEBHOOK, the per-mode credential rule, and loading from
    the environment with a secret-store fallback. The environment is a map
    and the secret store a function from secret id to an optional value. */
module Configuration {
  import opened Runtime
  import Text

  datatype Config = Config(
    companyName: string,
    bearerToken: Option<string>,
    accessId: Option<string>,
    accessKey: Option<string>,
    companyDomain: string,
    webhookSourceName: string,
    useWebhook: bool)

  const DefaultDomain: string := "logicmonitor.com"
  const DefaultSourceName: string := "GCP-VPC-FlowLogs"

  /** The record built with only the required company name: default domain
      and source name, ingest mode, and no credentials. */
  function WithDefaults(companyName: string): (c: Config)
    ensures c.companyName == companyName
    ensures c.bearerToken.None? && c.accessId.None? && c.accessKey.None?
    ensures c.companyDomain == "logicmonitor.com" && c.webhookSourceName == "GCP-VPC-FlowLogs"
    ensures !c.useWebhook
  {
    Config(companyName, None, None, None, DefaultDomain, DefaultSourceName, false)
  }

  /** Python's `if value:` on an optional string: None and "" are falsy. */
  predicate Present(o: Option<string>)
  {
    o.Some? && o.value != ""
  }

  /** `c` is either case of the ASCII letter `lower`. */
  predicate EitherCase(c: char, lower: char)
  {
    c == lower || c as int == lower as int - 32
  }

  /** The accepted spellings written out: "1", and "true" and "yes" in any
      mix of upper and lower case. */
  predicate AcceptedSpelling(value: string)
  {
    || value == "1"
    || (|value| == 4 && EitherCase(value[0], 't') && EitherCase(value[1], 'r')
                     && EitherCase(value[2], 'u') && EitherCase(value[3], 'e'))
    || (|value| == 3 && EitherCase(value[0], 'y') && EitherCase(value[1], 'e')
                     && EitherCase(value[2], 's'))
  }

  /** Lower-casing lands on "true", "1" or "yes" exactly for the accepted
      spellings. */
  lemma LowerSpellings(value: string)
    ensures Text.Lower(value) in {"true", "1", "yes"} <==> AcceptedSpelling(value)
  {
    var low := Text.Lower(value);
    if |value| == 4 {
      assert low == "true" <==> low[0] == 't' && low[1] == 'r' && low[2] == 'u' && low[3] == 'e';
    } else if |value| == 3 {
      assert low == "yes" <==> low[0] == 'y' && low[1] == 'e' && low[2] == 's';
    } else if |value| == 1 {
      assert low == "1" <==> low[0] == '1';
      assert value == "1" <==> value[0] == '1';
    }
  }

  /** `_parse_bool`: the lower-cased text is one of "true", "1", "yes", so
      exactly the accepted spellings are true and every other string is
      false. */
  function ParseBool(value: string): (b: bool)
    ensures b <==> AcceptedSpelling(value)
  {
    LowerSpellings(value);
    Text.Lower(value) in {"true", "1", "yes"}
  }

  /** `_validate_config`: webhook mode needs a bearer token, ingest mode
      needs both an access id and an access key. */
  function ValidateConfig(c: Config): (r: Check)
    ensures r.Pass? <==> (if c.useWebhook then Present(c.bearerToken)
                          else Present(c.accessId) && Present(c.accessKey))
    ensures r == Fail(ValueError(MissingBearerToken)) <==> c.useWebhook && !Present(c.bearerToken)
    ensures r == Fail(ValueError(MissingAccessCredentials)) <==>
              !c.useWebhook && (!Present(c.accessId) || !Present(c.accessKey))
  {
    if c.useWebhook && !Present(c.bearerToken) then Fail(ValueError(MissingBearerToken))
    else if !c.useWebhook && (!Present(c.accessId) || !Present(c.accessKey)) then
      Fail(ValueError(MissingAccessCredentials))
    else Pass
  }

  /** `os.environ.get(name)`. */
  function EnvGet(env: map<string, string>, name: string): Option<string>
  {
    if name in env then Some(env[name]) else None
  }

  /** `os.environ.get(name, default)`: only an unset variable takes the
      default; a variable set to "" keeps "". */
  function EnvGetOr(env: map<string, string>, name: string, default: string): string
  {
    if name in env then env[name] else default
  }

  /** The environment value if it is non-empty, else the secret store's. */
  function WithFallback(env: map<string, string>, name: string,
                        secret: string -> Option<string>, secretId: string): (r: Option<string>)
    ensures Present(EnvGet(env, name)) ==> r == EnvGet(env, name)
    ensures !Present(EnvGet(env, name)) ==> r == secret(secretId)
  {
    var fromEnv := EnvGet(env, name);
    if Present(fromEnv) then fromEnv else secret(secretId)
  }

  /** `load_config`. The company name comes from LM_COMPANY_NAME or the
      secret "lm-company-name" and must be non-empty; the bearer token from
      LM_BEARER_TOKEN or the secret "lm-bearer-token"; access id and key
      from the environment only; the rest from the environment with
      defaults. The result passes `ValidateConfig` or is its error; the
      company-name check comes first. */
  function LoadConfig(env: map<string, string>, secret: string -> Option<string>): (r: Result<Config>)
    ensures r.Ok? ==> ValidateConfig(r.value) == Pass
    ensures !Present(WithFallback(env, "LM_COMPANY_NAME", secret, "lm-company-name")) <==>
              r == Err(ValueError(MissingCompanyName))
    ensures r.Err? ==> r.exc.ValueError?
    ensures var webhook := ParseBool(EnvGetOr(env, "USE_WEBHOOK", "false"));
      Present(WithFallback(env, "LM_COMPANY_NAME", secret, "lm-company-name")) ==>
        (r.Ok? <==> if webhook then Present(WithFallback(env, "LM_BEARER_TOKEN", secret, "lm-bearer-token"))
                    else Present(EnvGet(env, "LM_ACCESS_ID")) && Present(EnvGet(env, "LM_ACCESS_KEY")))
    ensures r == Err(ValueError(MissingBearerToken)) <==>
      && Present(WithFallback(env, "LM_COMPANY_NAME", secret, "lm-company-name"))
      && ParseBool(EnvGetOr(env, "USE_WEBHOOK", "false"))
      && !Present(WithFallback(env, "LM_BEARER_TOKEN", secret, "lm-bearer-token"))
    ensures r == Err(ValueError(MissingAccessCredentials)) <==>
      && Present(WithFallback(env, "LM_COMPANY_NAME", secret, "lm-company-name"))
      && !ParseBool(EnvGetOr(env, "USE_WEBHOOK", "false"))
      && (!Present(EnvGet(env, "LM_ACCESS_ID")) || !Present(EnvGet(env, "LM_ACCESS_KEY")))
    ensures r.Ok? ==>
      && r.value.companyName == WithFallback(env, "LM_COMPANY_NAME", secret, "lm-company-name").value
      && r.value.bearerToken == WithFallback(env, "LM_BEARER_TOKEN", secret, "lm-bearer-token")
      && r.value.accessId == EnvGet(env, "LM_ACCESS_ID")
      && r.value.accessKey == EnvGet(env, "LM_ACCESS_KEY")
      && r.value.companyDomain == EnvGetOr(env, "LM_COMPANY_DOMAIN", "logicmonitor.com")
      && r.value.webhookSourceName == EnvGetOr(env, "WEBHOOK_SOURCE_NAME", "GCP-VPC-FlowLogs")
      && r.value.useWebhook == ParseBool(EnvGetOr(env, "USE_WEBHOOK", "false"))
  {
    var company := WithFallback(env, "LM_COMPANY_NAME", secret, "lm-company-name");
    if !Present(company) then Err(ValueError(MissingCompanyName))
    else
      var config := Config(
        company.value,
        WithFallback(env, "LM_BEARER_TOKEN", secret, "lm-bearer-token"),
        EnvGet(env, "LM_ACCESS_ID"),
        EnvGet(env, "LM_ACCESS_KEY"),
        EnvGetOr(env, "LM_COMPANY_DOMAIN", DefaultDomain),
        EnvGetOr(env, "WEBHOOK_SOURCE_NAME", DefaultSourceName),
        ParseBool(EnvGetOr(env, "USE_WEBHOOK", "false")));
      match ValidateConfig(config)
      case Pass => Ok(config)
      case Fail(e) => Err(e)
  }

  /** Unset optional variables give the default domain and source name and
      ingest mode ("false" does not parse as true). */
  lemma LoadConfigDefaults(env: map<string, string>, secret: string -> Option<string>)
    requires "LM_COMPANY_DOMAIN" !in env && "WEBHOOK_SOURCE_NAME" !in env && "USE_WEBHOOK" !in env
    requires LoadConfig(env, secret).Ok?
    ensures LoadConfig(env, secret).value.companyDomain == "logicmonitor.com"
    ensures LoadConfig(env, secret).value.webhookSourceName == "GCP-VPC-FlowLogs"
    ensures !LoadConfig(env, secret).value.useWebhook
  {
  }

  /** The secret store is only a fallback: once the environment gives a
      non-empty company name and bearer token, which store is attached makes
      no difference to the result. */
  lemma SecretOnlyWhenEnvEmpty(env: map<string, string>,
                               secret1: string -> Option<string>, secret2: string -> Option<string>)
    requires Present(EnvGet(env, "LM_COMPANY_NAME")) && Present(EnvGet(env, "LM_BEARER_TOKEN"))
    ensures LoadConfig(env, secret1) == LoadConfig(env, secret2)
  {
  }

  /** The secret store is asked only under the two secret ids, so a store
      that differs elsewhere cannot change the result. */
  lemma SecretIdsConsulted(env: map<string, string>,
                           secret1: string -> Option<string>, secret2: string -> Option<string>)
    requires secret1("lm-company-name") == secret2("lm-company-name")
    requires secret1("lm-bearer-token") == secret2("lm-bearer-token")
    ensures LoadConfig(env, secret1) == LoadConfig(env, secret2)
  {
  }
}
