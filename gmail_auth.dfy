/** gmail_auth.py: the credential chain with an environment tier in front of
    token.json, and the authorization-code helpers. */
module GmailAuth {
  import opened Common

  const SCOPES: seq<string> := [
    "https://www.googleapis.com/auth/gmail.readonly",
    "https://www.googleapis.com/auth/gmail.send",
    "https://www.googleapis.com/auth/gmail.compose"
  ]
  const REDIRECT_URI := "http://localhost:8080/"
  const DEFAULT_TOKEN_URI := "https://oauth2.googleapis.com/token"
  const FLOW_AUTH_URI := "https://accounts.google.com/o/oauth2/auth"
  const FLOW_TOKEN_URI := "https://accounts.google.com/o/oauth2/token"
  const FLOW_PORT := 8080

  /** The environment tier applies: refresh token, client id and client
      secret are all set and non-empty. */
  predicate EnvComplete(env: Env)
  {
    && Truthy(Getenv(env, "GOOGLE_REFRESH_TOKEN"))
    && Truthy(Getenv(env, "GOOGLE_CLIENT_ID"))
    && Truthy(Getenv(env, "GOOGLE_CLIENT_SECRET"))
  }

  /** The environment supplies a client identity for the flow. */
  predicate EnvClientIdentity(env: Env)
  {
    Truthy(Getenv(env, "GOOGLE_CLIENT_ID")) && Truthy(Getenv(env, "GOOGLE_CLIENT_SECRET"))
  }

  /** The credential built from the environment variables. */
  function EnvCredential(env: Env): (c: Credential)
    requires EnvComplete(env)
    ensures c.refreshToken == Getenv(env, "GOOGLE_REFRESH_TOKEN") && Truthy(c.refreshToken)
    ensures c.clientId == Getenv(env, "GOOGLE_CLIENT_ID") && Truthy(c.clientId)
    ensures c.clientSecret == Getenv(env, "GOOGLE_CLIENT_SECRET") && Truthy(c.clientSecret)
    ensures c.token == Getenv(env, "GOOGLE_ACCESS_TOKEN")
    ensures "GOOGLE_TOKEN_URI" !in env ==> c.tokenUri == Some(DEFAULT_TOKEN_URI)
    ensures "GOOGLE_TOKEN_URI" in env ==> c.tokenUri == Some(env["GOOGLE_TOKEN_URI"])
    ensures c.scopes == SCOPES
  {
    Credential(
      token := Getenv(env, "GOOGLE_ACCESS_TOKEN"),
      refreshToken := Getenv(env, "GOOGLE_REFRESH_TOKEN"),
      tokenUri := Some(GetenvOr(env, "GOOGLE_TOKEN_URI", DEFAULT_TOKEN_URI)),
      clientId := Getenv(env, "GOOGLE_CLIENT_ID"),
      clientSecret := Getenv(env, "GOOGLE_CLIENT_SECRET"),
      scopes := SCOPES)
  }

  /** The credential the chain starts from: the environment wins over token.json. */
  function Start(env: Env, tokenFileExists: bool, lib: Library): (s: Option<Loaded>)
    ensures EnvComplete(env) ==> s == Some(Loaded(EnvCredential(env), lib.envStatus))
    ensures !EnvComplete(env) ==> s == FileStart(tokenFileExists, lib)
  {
    if EnvComplete(env) then Some(Loaded(EnvCredential(env), lib.envStatus))
    else FileStart(tokenFileExists, lib)
  }

  /** The client configuration built from GOOGLE_CLIENT_ID and GOOGLE_CLIENT_SECRET. */
  function InstalledClientConfig(clientId: string, clientSecret: string): (cfg: map<string, Json>)
    ensures cfg.Keys == {"installed"} && cfg["installed"].JObj?
    ensures cfg["installed"].fields.Keys == {"client_id", "client_secret", "auth_uri", "token_uri"}
    ensures cfg["installed"].fields["client_id"] == JStr(clientId)
    ensures cfg["installed"].fields["client_secret"] == JStr(clientSecret)
    ensures cfg["installed"].fields["auth_uri"] == JStr(FLOW_AUTH_URI)
    ensures cfg["installed"].fields["token_uri"] == JStr(FLOW_TOKEN_URI)
  {
    map["installed" := JObj(map[
      "client_id" := JStr(clientId),
      "client_secret" := JStr(clientSecret),
      "auth_uri" := JStr(FLOW_AUTH_URI),
      "token_uri" := JStr(FLOW_TOKEN_URI)])]
  }

  /** The first client-secret file is there and loads. */
  predicate FileFlow(secretFiles: seq<string>, lib: Library)
  {
    |secretFiles| > 0 && lib.secretLoad == LoadOk
  }

  /** The warnings logged while loading the first client-secret file. */
  function LoadWarnings(path: string, load: SecretLoad): seq<Warning>
  {
    match load
    case LoadOk => []
    case LoadUnparseable => [ClientSecretUnparseable(path)]
    case LoadFailed => [ClientSecretLoadFailed(path)]
  }

  /** Where the flow takes its client identity from once it runs. */
  function FlowSourceFor(env: Env, secretFiles: seq<string>, lib: Library): FlowSource
    requires FileFlow(secretFiles, lib) || EnvClientIdentity(env)
  {
    if FileFlow(secretFiles, lib) then SecretFile(secretFiles[0])
    else ClientConfig(InstalledClientConfig(Getenv(env, "GOOGLE_CLIENT_ID").value,
                                            Getenv(env, "GOOGLE_CLIENT_SECRET").value))
  }

  /** `get_gmail_service`: resolve a credential through the environment
      tier, token.json, a single refresh or the local-server flow, and write
      token.json unless the credential came from the environment. */
  method GetGmailService(env: Env, tokenFileExists: bool, secretFiles: seq<string>, lib: Library)
    returns (run: Run)
    // precedence of the credential sources
    ensures run.tier == EnvTier <==> EnvComplete(env)
    ensures run.tier == FileTier <==> !EnvComplete(env) && tokenFileExists
    // a valid credential is used as it is
    ensures InitiallyValid(Start(env, tokenFileExists, lib)) ==>
              && !run.refreshed && run.flow == None && run.written == None && run.warnings == []
              && run.result == Ok(Start(env, tokenFileExists, lib).value.credential)
    // at most one refresh, and never a flow after it
    ensures run.refreshed <==> WillRefresh(Start(env, tokenFileExists, lib))
    ensures run.refreshed ==>
              && run.flow == None && run.warnings == []
              && run.result == Ok(Refreshed(Start(env, tokenFileExists, lib).value.credential, lib.newAccessToken))
    // the flow: the first client-secret file, else the environment, else ValueError
    ensures run.flow.Some? <==>
              FlowNeeded(Start(env, tokenFileExists, lib)) && (FileFlow(secretFiles, lib) || EnvClientIdentity(env))
    ensures run.flow.Some? ==>
              && run.flow.value == FlowRun(FlowSourceFor(env, secretFiles, lib), SCOPES, FLOW_PORT, None, false)
              && run.result == Ok(lib.flowCredential)
    ensures run.result.Err? <==>
              FlowNeeded(Start(env, tokenFileExists, lib)) && !FileFlow(secretFiles, lib) && !EnvClientIdentity(env)
    ensures run.result.Err? ==> run.result.error == MissingOAuthConfig && run.written == None
    // warnings are logged only while choosing the flow's client identity
    ensures FlowNeeded(Start(env, tokenFileExists, lib)) && |secretFiles| > 0 ==>
              run.warnings == (if |secretFiles| > 1 then [SeveralClientSecrets(secretFiles[0])] else [])
                              + LoadWarnings(secretFiles[0], lib.secretLoad)
    ensures |secretFiles| == 0 ==> run.warnings == []
    // token.json is written after a refresh or a flow, and never for environment credentials
    ensures run.written.Some? <==>
              !InitiallyValid(Start(env, tokenFileExists, lib)) && !EnvComplete(env) && run.result.Ok?
    ensures run.written.Some? ==> run.written == Some(run.result.value)
    ensures EnvComplete(env) ==> run.written == None
  {
    var start: Option<Loaded> := None;
    var tier := NoCredential;
    var envTokens := EnvComplete(env);
    if envTokens {
      start := Some(Loaded(EnvCredential(env), lib.envStatus));
      tier := EnvTier;
    } else if tokenFileExists {
      start := Some(Loaded(lib.fileCredential, lib.fileStatus));
      tier := FileTier;
    }

    var creds: Option<Credential> := if start.Some? then Some(start.value.credential) else None;
    var refreshed := false;
    var flowRun: Option<FlowRun> := None;
    var written: Option<Credential> := None;
    var warnings: seq<Warning> := [];
    if start.None? || !start.value.status.valid {
      if start.Some? && start.value.status.expired && Truthy(start.value.credential.refreshToken) {
        creds := Some(Refreshed(start.value.credential, lib.newAccessToken));
        refreshed := true;
      } else {
        var flow: Option<FlowSource> := None;
        if |secretFiles| > 0 {
          var path := secretFiles[0];
          if |secretFiles| > 1 {
            warnings := warnings + [SeveralClientSecrets(path)];
          }
          match lib.secretLoad {
            case LoadOk =>
              flow := Some(SecretFile(path));
            case LoadUnparseable =>
              warnings := warnings + [ClientSecretUnparseable(path)];
              flow := None;
            case LoadFailed =>
              warnings := warnings + [ClientSecretLoadFailed(path)];
              flow := None;
          }
        }
        if flow.None? {
          var clientId := Getenv(env, "GOOGLE_CLIENT_ID");
          var clientSecret := Getenv(env, "GOOGLE_CLIENT_SECRET");
          if Truthy(clientId) && Truthy(clientSecret) {
            flow := Some(ClientConfig(InstalledClientConfig(clientId.value, clientSecret.value)));
          } else {
            return Run(tier, false, None, None, warnings, Err(MissingOAuthConfig));
          }
        }
        flowRun := Some(FlowRun(flow.value, SCOPES, FLOW_PORT, None, false));
        creds := Some(lib.flowCredential);
      }
      // token.json is written only when the environment tier did not apply
      if !envTokens {
        written := creds;
      }
    }
    return Run(tier, refreshed, flowRun, written, warnings, Ok(creds.value));
  }

  // ---------------------------------------------------------------------
  // The authorization-code helpers

  /** A credential of oauth2client, reduced to what the helpers look at. */
  datatype OAuth2Credential = OAuth2Credential(accessToken: Option<string>, refreshToken: Option<string>)

  /** The query of the URL `step1_get_authorize_url` builds. */
  datatype AuthorizationUrl = AuthorizationUrl(
    redirectUri: Option<string>,
    scopes: seq<string>,
    params: map<string, Json>)

  datatype CredentialsError =
    | CodeExchange(authorizationUrl: Option<AuthorizationUrl>)
    | NoRefreshToken(url: AuthorizationUrl)
    | NoUserId
    | NotImplemented     // the storage helpers of the repository raise NotImplementedError

  /** An oauth2client flow, whose request parameters the caller sets before
      asking for the authorization URL. */
  class Flow {
    var scopes: seq<string>
    var params: map<string, Json>
    var redirectUri: Option<string>

    /** `flow_from_clientsecrets`: the parameters the library starts from. */
    constructor (scopes: seq<string>, initialParams: map<string, Json>)
      ensures this.scopes == scopes && params == initialParams && redirectUri == None
    {
      this.scopes := scopes;
      params := initialParams;
      redirectUri := None;
    }

    function AuthorizeUrl(): AuthorizationUrl
      reads this
    {
      AuthorizationUrl(redirectUri, scopes, params)
    }
  }

  /** The URL `get_authorization_url` returns for a flow that starts from `initialParams`. */
  function AuthorizationUrlFor(initialParams: map<string, Json>, email: Json, state: string): (u: AuthorizationUrl)
    ensures u.redirectUri == Some(REDIRECT_URI) && u.scopes == SCOPES
    ensures u.params.Keys == initialParams.Keys + {"access_type", "approval_prompt", "user_id", "state"}
    ensures u.params["access_type"] == JStr("offline") && u.params["approval_prompt"] == JStr("force")
    ensures u.params["user_id"] == email && u.params["state"] == JStr(state)
    ensures forall k :: k in initialParams && k !in {"access_type", "approval_prompt", "user_id", "state"} ==>
              u.params[k] == initialParams[k]
  {
    AuthorizationUrl(Some(REDIRECT_URI), SCOPES,
      initialParams["access_type" := JStr("offline")]["approval_prompt" := JStr("force")]
                   ["user_id" := email]["state" := JStr(state)])
  }

  /** `get_authorization_url`: set the offline-access parameters on a fresh flow. */
  method GetAuthorizationUrl(initialParams: map<string, Json>, email: Json, state: string)
    returns (url: AuthorizationUrl)
    ensures url == AuthorizationUrlFor(initialParams, email, state)
  {
    var flow := new Flow(SCOPES, initialParams);
    flow.params := flow.params["access_type" := JStr("offline")];
    flow.params := flow.params["approval_prompt" := JStr("force")];
    flow.params := flow.params["user_id" := email];
    flow.params := flow.params["state" := JStr(state)];
    flow.redirectUri := Some(REDIRECT_URI);
    url := flow.AuthorizeUrl();
  }

  /** `exchange_code`: `exchanged` is what `step2_exchange` returns, `None`
      when it raises FlowExchangeError. */
  function ExchangeCode(exchanged: Option<OAuth2Credential>): (r: Result<OAuth2Credential, CredentialsError>)
    ensures r.Ok? <==> exchanged.Some?
    ensures r.Ok? ==> r.value == exchanged.value
    ensures r.Err? ==> r.error == CodeExchange(None)
  {
    if exchanged.Some? then Ok(exchanged.value) else Err(CodeExchange(None))
  }

  /** The user info carries a truthy `id`. */
  predicate HasUserId(info: map<string, Json>)
  {
    JsonTruthy(Get(info, "id"))
  }

  /** `get_user_info`: `fetched` is the user-info response, `None` when the
      request raised HttpError (which is logged and swallowed). */
  function GetUserInfo(fetched: Option<map<string, Json>>): (r: Result<map<string, Json>, CredentialsError>)
    ensures r.Ok? <==> fetched.Some? && HasUserId(fetched.value)
    ensures r.Ok? ==> r.value == fetched.value && r.value != map[]
    ensures r.Err? ==> r.error == NoUserId
  {
    if fetched.Some? && fetched.value != map[] && HasUserId(fetched.value) then Ok(fetched.value)
    else Err(NoUserId)
  }

  /** The answers `get_credentials` gets from the code exchange, the
      user-info service and the credential store. */
  datatype CodeLibrary = CodeLibrary(
    flowParams: map<string, Json>,                // parameters of a fresh flow
    exchanged: Option<OAuth2Credential>,          // step2_exchange; None: FlowExchangeError
    userInfo: Option<map<string, Json>>,          // userinfo().get(); None: HttpError
    storeSucceeds: bool,                          // store_credentials returns instead of raising
    stored: Option<Option<OAuth2Credential>>)     // get_stored_credentials; None: it raises

  /** `get_credentials`: exchange the authorization code and return a
      credential only when it carries a refresh token. */
  method GetCredentials(state: string, lib: CodeLibrary) returns (r: Result<OAuth2Credential, CredentialsError>)
    // credentials are returned only with a refresh token
    ensures r.Ok? ==> r.value.refreshToken.Some?
    // a failed exchange is re-raised with the authorization URL filled in
    ensures lib.exchanged.None? ==>
              r == Err(CodeExchange(Some(AuthorizationUrlFor(lib.flowParams, JStr(""), state))))
    // no user id: NoRefreshTokenException with the authorization URL
    ensures lib.exchanged.Some? && GetUserInfo(lib.userInfo).Err? ==>
              r == Err(NoRefreshToken(AuthorizationUrlFor(lib.flowParams, JStr(""), state)))
    // a fresh refresh token is stored and returned
    ensures lib.exchanged.Some? && GetUserInfo(lib.userInfo).Ok? && lib.exchanged.value.refreshToken.Some? ==>
              r == (if lib.storeSucceeds then Ok(lib.exchanged.value) else Err(NotImplemented))
    // otherwise the stored credential is used if it has a refresh token
    ensures lib.exchanged.Some? && GetUserInfo(lib.userInfo).Ok? && lib.exchanged.value.refreshToken.None? ==>
              r == (if lib.stored.None? then Err(NotImplemented)
                    else if lib.stored.value.Some? && lib.stored.value.value.refreshToken.Some? then Ok(lib.stored.value.value)
                    else Err(NoRefreshToken(AuthorizationUrlFor(lib.flowParams, Get(lib.userInfo.value, "email"), state))))
  {
    var email: Json := JStr("");
    var exchange := ExchangeCode(lib.exchanged);
    if exchange.Err? {
      var url := GetAuthorizationUrl(lib.flowParams, email, state);
      return Err(CodeExchange(Some(url)));
    }
    var credentials := exchange.value;
    var info := GetUserInfo(lib.userInfo);
    if info.Ok? {
      email := Get(info.value, "email");
      if credentials.refreshToken.Some? {
        if !lib.storeSucceeds {
          return Err(NotImplemented);
        }
        return Ok(credentials);
      }
      if lib.stored.None? {
        return Err(NotImplemented);
      }
      var stored := lib.stored.value;
      if stored.Some? && stored.value.refreshToken.Some? {
        return Ok(stored.value);
      }
    }
    var url := GetAuthorizationUrl(lib.flowParams, email, state);
    return Err(NoRefreshToken(url));
  }
}
