/** test_gmail.py: the diagnostic script's classification of the
    client-secret file, its package-to-module name mapping and its
    credential chain (its subject lookup is GmailClient.Subject). */
module TestGmail {
  import opened Common
  import TokenChain

  const SCOPES: seq<string> := ["https://www.googleapis.com/auth/gmail.readonly"]
  const REQUIRED_PACKAGES: seq<string> :=
    ["google-auth", "google-auth-oauthlib", "google-auth-httplib2", "google-api-python-client"]
  const SHOWN_ID_LENGTH := 50
  const NOT_AVAILABLE := "N/A"

  datatype CredentialKind =
    | WebApplication(clientId: string)
    | InstalledApplication(clientId: string)
    | UnknownKind

  datatype ClassifyError =
    | SectionNotObject     // `.get` on a value that is not a dictionary
    | ClientIdNotString    // a client id the model does not print

  /** `s[:n]` */
  function Prefix(s: string, n: nat): (r: string)
    ensures r <= s
    ensures |r| == if |s| <= n then |s| else n
  {
    if |s| <= n then s else s[..n]
  }

  /** `section.get('client_id', 'N/A')[:50]` */
  function ShownClientId(section: Json): (r: Result<string, ClassifyError>)
    ensures !section.JObj? ==> r == Err(SectionNotObject)
    ensures section.JObj? && "client_id" !in section.fields ==> r == Ok(NOT_AVAILABLE)
    ensures section.JObj? && "client_id" in section.fields && section.fields["client_id"].JStr? ==>
              && r.Ok? && r.value <= section.fields["client_id"].s
              && |r.value| == if |section.fields["client_id"].s| <= SHOWN_ID_LENGTH
                              then |section.fields["client_id"].s| else SHOWN_ID_LENGTH
    ensures r.Ok? ==> |r.value| <= SHOWN_ID_LENGTH
  {
    if !section.JObj? then Err(SectionNotObject)
    else if "client_id" !in section.fields then Ok(Prefix(NOT_AVAILABLE, SHOWN_ID_LENGTH))
    else match section.fields["client_id"]
      case JStr(id) => Ok(Prefix(id, SHOWN_ID_LENGTH))
      case _ => Err(ClientIdNotString)
  }

  /** The credential type: `web` is checked first, then `installed`. */
  function Classify(data: map<string, Json>): (r: Result<CredentialKind, ClassifyError>)
    ensures "web" in data ==>
              (r.Ok? <==> ShownClientId(data["web"]).Ok?) &&
              (r.Ok? ==> r.value == WebApplication(ShownClientId(data["web"]).value))
    ensures "web" !in data && "installed" in data ==>
              (r.Ok? <==> ShownClientId(data["installed"]).Ok?) &&
              (r.Ok? ==> r.value == InstalledApplication(ShownClientId(data["installed"]).value))
    ensures "web" !in data && "installed" !in data ==> r == Ok(UnknownKind)
    ensures r.Err? ==> "web" in data || "installed" in data
  {
    if "web" in data then
      match ShownClientId(data["web"])
      case Ok(id) => Ok(WebApplication(id))
      case Err(e) => Err(e)
    else if "installed" in data then
      match ShownClientId(data["installed"])
      case Ok(id) => Ok(InstalledApplication(id))
      case Err(e) => Err(e)
    else Ok(UnknownKind)
  }

  /** `package.replace('-', '_')` */
  function ModuleName(package: string): (r: string)
    ensures |r| == |package|
    ensures forall i :: 0 <= i < |r| ==> r[i] == (if package[i] == '-' then '_' else package[i])
  {
    if package == "" then ""
    else [if package[0] == '-' then '_' else package[0]] + ModuleName(package[1..])
  }

  /** No hyphen survives, and mapping a module name again changes nothing. */
  lemma ModuleNameHasNoHyphen(package: string)
    ensures '-' !in ModuleName(package)
    ensures ModuleName(ModuleName(package)) == ModuleName(package)
  {
    var r := ModuleName(package);
    forall i | 0 <= i < |r| ensures r[i] != '-' {
    }
  }

  /** `get_gmail_service`: token.json, a single refresh, or the flow from the
      first client-secret file; token.json is rewritten after either. */
  method GetGmailService(tokenFileExists: bool, secretFiles: seq<string>, lib: Library)
    returns (run: Run)
    ensures run.tier == (if tokenFileExists then FileTier else NoCredential) && run.warnings == []
    // a valid credential is used as it is
    ensures InitiallyValid(FileStart(tokenFileExists, lib)) ==>
              && !run.refreshed && run.flow == None && run.written == None
              && run.result == Ok(lib.fileCredential)
    // a refresh iff the credential is expired and has a refresh token; then no flow
    ensures run.refreshed <==> WillRefresh(FileStart(tokenFileExists, lib))
    ensures run.refreshed ==>
              run.flow == None && run.result == Ok(Refreshed(lib.fileCredential, lib.newAccessToken))
    // otherwise the flow from the first client-secret file, on port 8080 with
    // the browser opened, or IndexError when there is no such file
    ensures run.flow.Some? <==> FlowNeeded(FileStart(tokenFileExists, lib)) && |secretFiles| > 0
    ensures run.flow.Some? ==>
              && run.flow.value == FlowRun(SecretFile(secretFiles[0]), SCOPES, TokenChain.FLOW_PORT, None, true)
              && run.result == Ok(lib.flowCredential)
    ensures run.result.Err? <==> FlowNeeded(FileStart(tokenFileExists, lib)) && |secretFiles| == 0
    ensures run.result.Err? ==> run.result.error == NoClientSecretFile
    // token.json receives the resulting credential iff it was not valid to begin with
    ensures run.written.Some? <==> !InitiallyValid(FileStart(tokenFileExists, lib)) && run.result.Ok?
    ensures run.written.Some? ==> run.written == Some(run.result.value)
  {
    run := TokenChain.ResolveFromTokenFile(SCOPES, tokenFileExists, secretFiles, lib);
  }
}
