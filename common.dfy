/** Values shared by the credential-resolution scripts: Python's optional
    values and truthiness, environment lookup, parsed JSON, the OAuth2
    credential and the record of what one resolution run did. */
module Common {

  datatype Option<T> = None | Some(value: T)

  datatype Result<T, E> = Ok(value: T) | Err(error: E)

  /** A JSON value as `json.load` returns it. */
  datatype Json =
    | JNull
    | JBool(b: bool)
    | JNum(n: int)
    | JStr(s: string)
    | JArr(items: seq<Json>)
    | JObj(fields: map<string, Json>)

  /** Python truthiness of a parsed JSON value. */
  predicate JsonTruthy(j: Json)
  {
    match j
    case JNull => false
    case JBool(b) => b
    case JNum(n) => n != 0
    case JStr(s) => s != ""
    case JArr(items) => items != []
    case JObj(fields) => fields != map[]
  }

  /** `d.get(key)` on a dictionary: `None` (here `JNull`) when the key is absent. */
  function Get(d: map<string, Json>, key: string): Json
  {
    if key in d then d[key] else JNull
  }

  /** The process environment, read through `os.getenv`. */
  type Env = map<string, string>

  function Getenv(env: Env, name: string): Option<string>
  {
    if name in env then Some(env[name]) else None
  }

  /** `os.getenv(name, default)`: the default only when the variable is unset. */
  function GetenvOr(env: Env, name: string, default: string): string
  {
    if name in env then env[name] else default
  }

  /** Python truthiness of an optional string: present and not empty. */
  predicate Truthy(v: Option<string>)
  {
    v.Some? && v.value != ""
  }

  /** An OAuth2 credential as `google.oauth2.credentials.Credentials` holds it
      (the expiry time is the library's business and is not modelled). */
  datatype Credential = Credential(
    token: Option<string>,
    refreshToken: Option<string>,
    tokenUri: Option<string>,
    clientId: Option<string>,
    clientSecret: Option<string>,
    scopes: seq<string>)

  /** `creds.valid` and `creds.expired`: computed by google-auth, inputs here. */
  datatype Status = Status(valid: bool, expired: bool)

  /** A credential the run starts from, with what the library says of it. */
  datatype Loaded = Loaded(credential: Credential, status: Status)

  /** `creds.refresh(Request())`, modelled as replacing only the access
      token; the expiry and a rotated refresh token are not modelled. */
  function Refreshed(c: Credential, newToken: string): (r: Credential)
    ensures r.token == Some(newToken)
    ensures r.(token := c.token) == c
  {
    c.(token := Some(newToken))
  }

  /** `if not creds or not creds.valid` is false: the credential is used as it is. */
  predicate InitiallyValid(start: Option<Loaded>)
  {
    start.Some? && start.value.status.valid
  }

  /** `creds and creds.expired and creds.refresh_token` inside the invalid branch. */
  predicate WillRefresh(start: Option<Loaded>)
  {
    && start.Some?
    && !start.value.status.valid
    && start.value.status.expired
    && Truthy(start.value.credential.refreshToken)
  }

  /** Neither valid nor refreshable: the interactive flow branch is taken. */
  predicate FlowNeeded(start: Option<Loaded>)
  {
    !InitiallyValid(start) && !WillRefresh(start)
  }

  /** Where an `InstalledAppFlow` takes its client identity from. */
  datatype FlowSource =
    | SecretFile(path: string)                    // from_client_secrets_file
    | ClientConfig(config: map<string, Json>)     // from_client_config

  /** One call of `flow.run_local_server(...)`. */
  datatype FlowRun = FlowRun(
    source: FlowSource,
    scopes: seq<string>,
    port: int,
    prompt: Option<string>,
    openBrowser: bool)

  /** Which credential source the run started from. */
  datatype Tier = EnvTier | FileTier | NoCredential

  /** What loading the first client-secret file did. */
  datatype SecretLoad =
    | LoadOk
    | LoadUnparseable     // json.JSONDecodeError, ValueError or OSError
    | LoadFailed          // any other exception

  datatype Warning =
    | SeveralClientSecrets(used: string)
    | ClientSecretUnparseable(path: string)
    | ClientSecretLoadFailed(path: string)

  datatype AuthError =
    | MissingOAuthConfig          // ValueError: no client-secret file and no client id/secret
    | NoClientSecretFile          // IndexError on `client_secrets[0]`
    | NameNotDefined(name: string) // NameError on a name the module never imported
    | MalformedWebConfig          // KeyError or TypeError reading the `web` section

  /** What one credential-resolution run did. */
  datatype Run = Run(
    tier: Tier,
    refreshed: bool,
    flow: Option<FlowRun>,
    written: Option<Credential>,    // what was written to token.json, if anything
    warnings: seq<Warning>,
    result: Result<Credential, AuthError>)

  /** The answers of the libraries and files a run consults. */
  datatype Library = Library(
    envStatus: Status,               // validity of the credential built from the environment
    fileCredential: Credential,      // Credentials.from_authorized_user_file
    fileStatus: Status,
    newAccessToken: string,          // what a refresh obtains
    secretLoad: SecretLoad,          // InstalledAppFlow.from_client_secrets_file
    clientConfig: map<string, Json>, // json.load of the client-secret file
    flowCredential: Credential)      // flow.run_local_server

  /** The credential read from token.json, when that file exists. */
  function FileStart(tokenFileExists: bool, lib: Library): Option<Loaded>
  {
    if tokenFileExists then Some(Loaded(lib.fileCredential, lib.fileStatus)) else None
  }
}
