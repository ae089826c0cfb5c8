/** generate_token.py: obtain token.json once, interactively, normalising a
    `web` client configuration into the `installed` shape the flow expects. */
module GenerateToken {
  import opened Common

  const SCOPES: seq<string> := [
    "https://www.googleapis.com/auth/gmail.readonly",
    "https://www.googleapis.com/auth/gmail.send",
    "https://www.googleapis.com/auth/gmail.compose"
  ]
  const REDIRECT_URI := "http://localhost:8080/"
  const FLOW_PORT := 8080
  const CONSENT := "consent"

  /** The keys copied from the `web` section. */
  const IDENTITY_KEYS: set<string> := {"client_id", "client_secret", "auth_uri", "token_uri"}

  /** The `web` section is an object holding every identity key. */
  predicate WellFormedWeb(cfg: map<string, Json>)
  {
    && "web" in cfg && cfg["web"].JObj?
    && "client_id" in cfg["web"].fields
    && "client_secret" in cfg["web"].fields
    && "auth_uri" in cfg["web"].fields
    && "token_uri" in cfg["web"].fields
  }

  /** The configuration the flow is built from: a `web` configuration is
      rewritten to the `installed` shape, any other is used unchanged. */
  function NormalizeClientConfig(cfg: map<string, Json>): (r: Result<map<string, Json>, AuthError>)
    ensures "web" !in cfg ==> r == Ok(cfg)
    ensures "web" in cfg ==> (r.Ok? <==> WellFormedWeb(cfg))
    ensures r.Err? ==> r.error == MalformedWebConfig
    ensures "web" in cfg && r.Ok? ==>
              && r.value.Keys == {"installed"} && r.value["installed"].JObj?
              && r.value["installed"].fields.Keys == IDENTITY_KEYS + {"redirect_uris"}
              && (forall key :: key in IDENTITY_KEYS ==>
                    r.value["installed"].fields[key] == cfg["web"].fields[key])
              && r.value["installed"].fields["redirect_uris"] == JArr([JStr(REDIRECT_URI)])
  {
    if "web" in cfg then
      if WellFormedWeb(cfg) then
        var web := cfg["web"].fields;
        Ok(map["installed" := JObj(map[
          "client_id" := web["client_id"],
          "client_secret" := web["client_secret"],
          "auth_uri" := web["auth_uri"],
          "token_uri" := web["token_uri"],
          "redirect_uris" := JArr([JStr(REDIRECT_URI)])])])
      else Err(MalformedWebConfig)
    else Ok(cfg)
  }

  /** Normalising twice changes nothing: the result has no `web` key. */
  lemma NormalizeIdempotent(cfg: map<string, Json>)
    requires NormalizeClientConfig(cfg).Ok?
    ensures NormalizeClientConfig(NormalizeClientConfig(cfg).value) == NormalizeClientConfig(cfg)
  {
    var once := NormalizeClientConfig(cfg).value;
    if "web" in cfg {
      assert "web" !in once.Keys;
    }
  }

  /** The flow's client identity: the normalised configuration of a `web`
      file, the file itself otherwise. */
  function FlowSourceFor(path: string, cfg: map<string, Json>): FlowSource
    requires NormalizeClientConfig(cfg).Ok?
  {
    if "web" in cfg then ClientConfig(NormalizeClientConfig(cfg).value) else SecretFile(path)
  }

  datatype Generation =
    | NoSecretFile                            // printed and returned early
    | Generated(secretFile: string, run: Run)

  /** `generate_token` */
  method GenerateToken(tokenFileExists: bool, secretFiles: seq<string>, lib: Library)
    returns (g: Generation)
    // no client-secret file: return early, reading and writing nothing
    ensures g.NoSecretFile? <==> |secretFiles| == 0
    // the first client-secret file is the one used
    ensures g.Generated? ==> g.secretFile == secretFiles[0]
    ensures g.Generated? ==>
              g.run.tier == (if tokenFileExists then FileTier else NoCredential) && g.run.warnings == []
    // a valid credential: no refresh, no flow, no write
    ensures g.Generated? && InitiallyValid(FileStart(tokenFileExists, lib)) ==>
              && !g.run.refreshed && g.run.flow == None && g.run.written == None
              && g.run.result == Ok(lib.fileCredential)
    // a refresh iff expired with a refresh token, otherwise the flow
    ensures g.Generated? ==> (g.run.refreshed <==> WillRefresh(FileStart(tokenFileExists, lib)))
    ensures g.Generated? && g.run.refreshed ==>
              g.run.flow == None && g.run.result == Ok(Refreshed(lib.fileCredential, lib.newAccessToken))
    ensures g.Generated? ==>
              (g.run.flow.Some? <==>
                 FlowNeeded(FileStart(tokenFileExists, lib)) && NormalizeClientConfig(lib.clientConfig).Ok?)
    // the flow always runs on port 8080, asks for consent and opens the browser
    ensures g.Generated? && g.run.flow.Some? ==>
              && g.run.flow.value == FlowRun(FlowSourceFor(secretFiles[0], lib.clientConfig), SCOPES, FLOW_PORT, Some(CONSENT), true)
              && g.run.result == Ok(lib.flowCredential)
    ensures g.Generated? ==>
              (g.run.result.Err? <==>
                 FlowNeeded(FileStart(tokenFileExists, lib)) && NormalizeClientConfig(lib.clientConfig).Err?)
    ensures g.Generated? && g.run.result.Err? ==> g.run.result.error == MalformedWebConfig
    // token.json is written whenever a refresh or a flow ran
    ensures g.Generated? ==>
              (g.run.written.Some? <==> !InitiallyValid(FileStart(tokenFileExists, lib)) && g.run.result.Ok?)
    ensures g.Generated? && g.run.written.Some? ==> g.run.written == Some(g.run.result.value)
  {
    if |secretFiles| == 0 {
      return NoSecretFile;
    }
    var secretFile := secretFiles[0];
    var start: Option<Loaded> := None;
    var tier := NoCredential;
    if tokenFileExists {
      start := Some(Loaded(lib.fileCredential, lib.fileStatus));
      tier := FileTier;
    }
    var creds: Option<Credential> := if start.Some? then Some(start.value.credential) else None;
    var refreshed := false;
    var flowRun: Option<FlowRun> := None;
    var written: Option<Credential> := None;
    if start.None? || !start.value.status.valid {
      if start.Some? && start.value.status.expired && Truthy(start.value.credential.refreshToken) {
        creds := Some(Refreshed(start.value.credential, lib.newAccessToken));
        refreshed := true;
      } else {
        var clientConfig := lib.clientConfig;
        var source: FlowSource;
        if "web" in clientConfig {
          var config := NormalizeClientConfig(clientConfig);
          if config.Err? {
            return Generated(secretFile, Run(tier, false, None, None, [], Err(config.error)));
          }
          source := ClientConfig(config.value);
        } else {
          source := SecretFile(secretFile);
        }
        flowRun := Some(FlowRun(source, SCOPES, FLOW_PORT, Some(CONSENT), true));
        creds := Some(lib.flowCredential);
      }
      written := creds;
    }
    return Generated(secretFile, Run(tier, refreshed, flowRun, written, [], Ok(creds.value)));
  }
}
