/** Configure of the InfluxDB provider (internal/provider/provider.go): resolving the server
    URL and the credentials from configuration and environment, validating them, and choosing
    between token and username/password login. The environment, the sign-in call and the ping
    are inputs: the two variables as os.Getenv returns them ("" when unset), and the error each
    call would return. */
module Provider {
  import opened TfValues

  /** InfluxDBProviderModel */
  datatype ProviderConfig = ProviderConfig(url: TfString, token: TfString, username: TfString, password: TfString)

  /** INFLUXDB_URL and INFLUXDB_TOKEN; no other variable is read. */
  datatype Env = Env(influxdbUrl: string, influxdbToken: string)

  datatype Credentials = Credentials(username: string, password: string)

  /** The client handed to resources and data sources: its URL, its token, and the username
      and password it signed in with, if any. */
  datatype Client = Client(url: string, token: string, login: Option<Credentials>)

  /** A configured attribute overrides the environment default whenever it is not null, even
      when its value is empty; username and password come only from configuration. */
  function ResolveUrl(config: ProviderConfig, env: Env): string
  {
    if !config.url.Null? then ValueString(config.url) else env.influxdbUrl
  }

  function ResolveToken(config: ProviderConfig, env: Env): string
  {
    if !config.token.Null? then ValueString(config.token) else env.influxdbToken
  }

  /** The errors for configured values that are not yet known, in the order they are added. */
  function UnknownErrors(config: ProviderConfig): seq<Diagnostic>
  {
    (if config.url.Unknown? then [ErrorAt("url", "Unknown InfluxDB URL")] else [])
    + (if config.token.Unknown? then [ErrorAt("token", "Unknown InfluxDB Token")] else [])
  }

  /** The errors for missing values, both collected before the single early return. */
  function MissingErrors(url: string, token: string, username: string): seq<Diagnostic>
  {
    (if url == "" then [ErrorAt("url", "Missing InfluxDB URL")] else [])
    + (if token == "" && username == "" then [ErrorAt("token", "Missing InfluxDB Credentials")] else [])
  }

  /** Configure, lines 84-194. */
  method Configure(config: ProviderConfig, env: Env, signInErr: Option<string>, pingErr: Option<string>)
    returns (client: Option<Client>, diags: seq<Diagnostic>)
    ensures UnknownErrors(config) != [] ==> client == None && diags == UnknownErrors(config)
    ensures UnknownErrors(config) == [] ==>
      var (url, token, username) := (ResolveUrl(config, env), ResolveToken(config, env), ValueString(config.username));
      && (MissingErrors(url, token, username) != [] ==> client == None && diags == MissingErrors(url, token, username))
      && (MissingErrors(url, token, username) == [] && username == "" ==>
            if pingErr.Some? then client == None && diags == [ErrorOf("Unable to Create InfluxDB Client")]
            else client == Some(Client(url, token, None)) && diags == [])
      && (MissingErrors(url, token, username) == [] && username != "" ==>
            if signInErr.Some? || pingErr.Some? then client == None && diags == [ErrorOf("Unable to Create InfluxDB Client")]
            else client == Some(Client(url, "", Some(Credentials(username, ValueString(config.password))))) && diags == [])
    ensures client.Some? <==> diags == []
  {
    diags := [];
    if config.url.Unknown? {
      diags := diags + [ErrorAt("url", "Unknown InfluxDB URL")];
    }
    if config.token.Unknown? {
      diags := diags + [ErrorAt("token", "Unknown InfluxDB Token")];
    }
    assert diags == UnknownErrors(config);
    if diags != [] {
      return None, diags;
    }

    var url := env.influxdbUrl;
    var token := env.influxdbToken;
    if !config.url.Null? {
      url := ValueString(config.url);
    }
    if !config.token.Null? {
      token := ValueString(config.token);
    }
    var userName := ValueString(config.username);
    var password := ValueString(config.password);
    assert url == ResolveUrl(config, env) && token == ResolveToken(config, env);

    if url == "" {
      diags := diags + [ErrorAt("url", "Missing InfluxDB URL")];
    }
    if token == "" && userName == "" {
      diags := diags + [ErrorAt("token", "Missing InfluxDB Credentials")];
    }
    assert diags == MissingErrors(url, token, userName);
    if diags != [] {
      return None, diags;
    }

    var c: Client;
    if userName == "" {
      c := Client(url, token, None);
    } else {
      c := Client(url, "", Some(Credentials(userName, password)));
      if signInErr.Some? {
        return None, [ErrorOf("Unable to Create InfluxDB Client")];
      }
    }
    if pingErr.Some? {
      return None, [ErrorOf("Unable to Create InfluxDB Client")];
    }
    return Some(c), [];
  }

  /** A non-null configured URL wins over the environment, even an empty one, and then the
      URL is reported missing whatever INFLUXDB_URL holds. */
  lemma ConfiguredEmptyUrlIsMissing(config: ProviderConfig, env: Env)
    requires config.url == Known("")
    ensures MissingErrors(ResolveUrl(config, env), ResolveToken(config, env), ValueString(config.username))[0]
      == ErrorAt("url", "Missing InfluxDB URL")
  {
  }

  /** Only a null attribute falls back to the environment. */
  lemma EnvironmentOnlyForNull(config: ProviderConfig, env: Env, env': Env)
    requires !config.url.Null? && !config.token.Null?
    ensures ResolveUrl(config, env) == ResolveUrl(config, env') && ResolveToken(config, env) == ResolveToken(config, env')
  {
  }

  /** The password is never validated: replacing it never changes the missing-value errors,
      and a URL with a username is enough even with an empty token and an empty password. */
  lemma PasswordNotChecked(config: ProviderConfig, env: Env, password: TfString)
    ensures var c := config.(password := password);
      MissingErrors(ResolveUrl(c, env), ResolveToken(c, env), ValueString(c.username))
        == MissingErrors(ResolveUrl(config, env), ResolveToken(config, env), ValueString(config.username))
    ensures ResolveUrl(config, env) != "" && ValueString(config.username) != "" ==>
      MissingErrors(ResolveUrl(config, env), ResolveToken(config, env), ValueString(config.username)) == []
  {
  }
}
