/** The credential chain without an environment tier, as test_gmail.py
    writes it and as gmail_client.py means it: token.json, a single refresh,
    or the local-server flow from the first client-secret file. */
module TokenChain {
  import opened Common

  const FLOW_PORT := 8080

  method ResolveFromTokenFile(scopes: seq<string>, tokenFileExists: bool, secretFiles: seq<string>, lib: Library)
    returns (run: Run)
    ensures run.tier == (if tokenFileExists then FileTier else NoCredential) && run.warnings == []
    // a valid credential is used as it is
    ensures InitiallyValid(FileStart(tokenFileExists, lib)) ==>
              && !run.refreshed && run.flow == None && run.written == None
              && run.result == Ok(lib.fileCredential)
    // a refresh iff the credential is expired and has a refresh token; then no flow
    ensures run.refreshed <==> WillRefresh(FileStart(tokenFileExists, lib))
    ensures run.refreshed ==>
              run.flow == None && run.result == Ok(Refreshed(lib.fileCredential, lib.newAccessToken))
    // otherwise the flow from the first client-secret file, or IndexError when there is none
    ensures run.flow.Some? <==> FlowNeeded(FileStart(tokenFileExists, lib)) && |secretFiles| > 0
    ensures run.flow.Some? ==>
              && run.flow.value == FlowRun(SecretFile(secretFiles[0]), scopes, FLOW_PORT, None, true)
              && run.result == Ok(lib.flowCredential)
    ensures run.result.Err? <==> FlowNeeded(FileStart(tokenFileExists, lib)) && |secretFiles| == 0
    ensures run.result.Err? ==> run.result.error == NoClientSecretFile
    // token.json is written iff the credential was not valid to begin with and the run succeeded
    ensures run.written.Some? <==> !InitiallyValid(FileStart(tokenFileExists, lib)) && run.result.Ok?
    ensures run.written.Some? ==> run.written == Some(run.result.value)
  {
    var start: Option<Loaded> := None;
    var tier := NoCredential;
    if tokenFileExists {
      start := Some(Loaded(lib.fileCredential, lib.fileStatus));
      tier := FileTier;
    }
    var creds: Option<Credential> := if start.Some? then Some(start.value.credential) else None;
    var refreshed := false;
    var flowRun: Option<FlowRun> := None;
    var written: Option<Credential> := None;
    if start.None? || !start.value.status.valid {
      if start.Some? && start.value.status.expired && Truthy(start.value.credential.refreshToken) {
        creds := Some(Refreshed(start.value.credential, lib.newAccessToken));
        refreshed := true;
      } else {
        if |secretFiles| == 0 {
          return Run(tier, false, None, None, [], Err(NoClientSecretFile));
        }
        flowRun := Some(FlowRun(SecretFile(secretFiles[0]), scopes, FLOW_PORT, None, true));
        creds := Some(lib.flowCredential);
      }
      written := creds;
    }
    return Run(tier, refreshed, flowRun, written, [], Ok(creds.value));
  }
}
