# Gmail OAuth credential resolution and mail-tool helpers, modelled in Dafny

The scripts of this repository authenticate against the Gmail API with
OAuth2 and expose a few mail operations as tools for an LLM agent. Almost
all of their work is delegated to google-auth, oauth2client, the Gmail REST
API and FastMCP. This project models the deterministic logic the authors
wrote around those libraries:

- the credential chain of `get_gmail_service` in gmail_auth.py. It tries an
  environment tier first (GOOGLE_REFRESH_TOKEN, GOOGLE_CLIENT_ID and
  GOOGLE_CLIENT_SECRET all set), then token.json. It uses a valid credential
  as it is. Otherwise it refreshes once or runs the local-server flow. The
  flow takes its client identity from the first `client_secret_*.json` file,
  else from the environment, else the chain raises ValueError. token.json is
  written unless the environment tier applied;
- the variants of that chain without an environment tier: gmail_client.py,
  test_gmail.py and generate_token.py. The last one also rewrites a `web`
  client configuration into the `installed` shape;
- the authorization-code helpers of gmail_auth.py: `exchange_code`,
  `get_user_info`, `get_authorization_url` and `get_credentials`;
- `ListMessages` paging and `get_last_messages` with its subject lookup
  (gmail_client.py);
- the diagnostic helpers of test_gmail.py: classifying the client-secret
  file and mapping package names to module names;
- the strings returned by the tools in app.py.

Every library call is an input. `Common.Library` holds the answers the
chain gets back:

- `creds.valid` and `creds.expired` as google-auth computes them;
- the credential read from token.json;
- the access token a refresh obtains;
- how loading the client-secret file went;
- the parsed client-secret JSON;
- the credential the flow returns.

`GmailAuth.CodeLibrary` plays the same part for the code exchange, the
user-info request and the credential store. The Gmail list and get calls are
a script of responses, or a function from message id to response. Each
chain returns a `Common.Run` record. It says which source was used, whether
a refresh or a flow happened, what was written to token.json, which
warnings were logged, and the credential or the error.

Behaviour of the scripts worth knowing:

- a corrupt token.json raises instead of counting as absent (gmail_auth.py:62);
- a failed refresh raises instead of falling through to the flow (gmail_auth.py:66);
- there is no manual paste-the-redirect-URL variant: the flow always runs a local server;
- the environment variables are named `GOOGLE_*` (gmail_auth.py:44-59);
- the environment tier's credential goes through the same validity check as
  the file's, so it can still reach the interactive flow (without writing
  token.json).

Modules: `Common` (common.dfy), `GmailAuth` (gmail_auth.dfy), `TokenChain`
(token_chain.dfy, the chain test_gmail.py writes and gmail_client.py
means), `GmailClient` (gmail_client.dfy), `GenerateToken`
(generate_token.dfy), `TestGmail` (test_gmail.dfy) and `App` (app.dfy).

## Model

| member | source | states |
|---|---|---|
| `Common.Refreshed` | gmail_auth.py:65-66 | a refresh is modelled as replacing the access token with the new one and leaving every other modelled field of the credential as it was |
| `GmailAuth.EnvCredential` | gmail_auth.py:44-59 | the environment credential carries the three required variables (all non-empty), the possibly absent GOOGLE_ACCESS_TOKEN and SCOPES; its token URI is GOOGLE_TOKEN_URI when set (even if empty), else `https://oauth2.googleapis.com/token` |
| `GmailAuth.Start` | gmail_auth.py:50-62 | the environment tier wins whenever its three variables are truthy, even when token.json exists; otherwise token.json is read if it exists |
| `GmailAuth.InstalledClientConfig` | gmail_auth.py:105-115 | the fallback configuration has the single key `installed`, holding exactly the environment's client id and secret and the fixed auth and token URIs |
| `GmailAuth.GetGmailService` | gmail_auth.py:33-130 | environment tier iff its three variables are truthy, file tier iff not and token.json exists; a valid credential means no refresh, no flow, no write and no warning; a refresh iff the credential exists, is expired and has a refresh token, and then no flow; the flow iff neither holds and there is a loadable first client-secret file or an env id and secret; ValueError exactly when neither, before any flow and with nothing written; the flow runs on port 8080 without opening a browser; it warns about several client-secret files iff there are more than one, and a failed load warns instead of raising; token.json receives the resulting credential iff the credential was not valid to begin with, the env tier did not apply and the run succeeded |
| `GmailAuth.Flow.constructor` | gmail_auth.py:226 | a fresh flow starts from the library's parameters and has no redirect URI |
| `GmailAuth.AuthorizationUrlFor` | gmail_auth.py:221-233 | the authorization request has the redirect URI `http://localhost:8080/`, SCOPES, and `access_type=offline`, `approval_prompt=force`, `user_id` = the email and `state` set; other initial parameters are kept |
| `GmailAuth.GetAuthorizationUrl` | gmail_auth.py:221-233 | setting the four parameters and the redirect URI on a fresh flow yields exactly that request |
| `GmailAuth.ExchangeCode` | gmail_auth.py:184-196 | the exchanged credential is returned, or CodeExchangeException with no authorization URL when the exchange fails |
| `GmailAuth.GetUserInfo` | gmail_auth.py:198-219 | the user info is returned iff the request succeeded and the info has a truthy `id`; otherwise NoUserIdException (an HttpError is swallowed) |
| `GmailAuth.GetCredentials` | gmail_auth.py:235-263 | credentials are returned only with a refresh token; a failed exchange re-raises CodeExchangeException with the authorization URL filled in for user `''`; a missing user id ends in NoRefreshTokenException with that URL; a fresh refresh token is stored and returned; otherwise the stored credential is returned if it has a refresh token, else NoRefreshTokenException for the user's email; a store that raises propagates |
| `TokenChain.ResolveFromTokenFile` | test_gmail.py:68-85 | no environment tier and no warnings; a valid token.json means nothing else happens; a refresh iff expired with a refresh token, then no flow; otherwise the flow from the first client-secret file, or IndexError when there is none; token.json is written iff the credential was not valid to begin with and the run succeeded |
| `TestGmail.GetGmailService` | test_gmail.py:68-85 | with the script's read-only scope: a valid token.json is returned as is; a refresh iff expired with a refresh token, returning the refreshed credential; otherwise the flow from the first client-secret file on port 8080 with the browser opened, returning its credential, or IndexError without a file; token.json receives the returned credential iff it was not initially valid |
| `GmailClient.CollectedAppend` | gmail_client.py:104-115 | collecting the messages of two runs of pages is collecting each run, one after the other (page order) |
| `GmailClient.CollectedSkipsEmptyPage` | gmail_client.py:105-113 | a page without a `messages` key contributes nothing to the result |
| `GmailClient.CollectedMembership` | gmail_client.py:104-115 | a message is in the result iff some page lists it |
| `GmailClient.ListMessages` | gmail_client.py:87-121 | the first request has no page token; another request is issued exactly while the last response has `nextPageToken`, and it carries that token; the result is the concatenation, in page order, of the pages' `messages`; HttpError 401 raises NotImplementedError and any other HttpError returns None |
| `GmailClient.FirstSubject` | gmail_client.py:133 | the result is the value of the first header named exactly `Subject`, and is absent iff no header has that name |
| `GmailClient.Subject` | gmail_client.py:132-133 | the shown subject is the value of the first header named `Subject`, and `(bez předmětu)` when no header has that name or the message has no payload |
| `GmailClient.GetLastMessages` | gmail_client.py:123-139 | one `{id, subject}` entry per listed message, in order, with the id unchanged and the subject from the first `Subject` header or `(bez předmětu)`; a listing without `messages` yields `[]`; an HttpError on the list or on any get yields `[]`; messages are fetched in list order: all of them when every get succeeds, otherwise up to and including the first that fails |
| `GmailClient.GetGmailServiceAsWritten` | gmail_client.py:47-65 | as written, a valid token.json is returned as is, and every other run ends in NameError; token.json is never written |
| `GmailClient.GetGmailService` | gmail_client.py:47-65 | with the missing imports supplied: no environment tier; a valid token.json is returned as is; a refresh iff expired with a refresh token, returning the refreshed credential; otherwise the flow from the first client-secret file with the module's two scopes, on port 8080 with the browser opened, returning its credential, or IndexError without a file; token.json receives the returned credential whenever it was not initially valid |
| `GenerateToken.NormalizeClientConfig` | generate_token.py:42-55 | a config with `web` becomes `{installed: {...}}`, copying client_id, client_secret, auth_uri and token_uri from `web` and adding `redirect_uris = ['http://localhost:8080/']`; `web` wins over `installed`; a `web` section missing a key fails; without `web` the config is used unchanged |
| `GenerateToken.NormalizeIdempotent` | generate_token.py:42-55 | normalising a normalised config changes nothing |
| `GenerateToken.GenerateToken` | generate_token.py:14-68 | no client-secret file means an early return with nothing read or written; the first file is used; a valid credential means no refresh, flow or write; a refresh iff expired with a refresh token, otherwise the flow, always on port 8080 with `prompt='consent'` and a browser; token.json is written whenever a refresh or flow ran |
| `TestGmail.Prefix` | test_gmail.py:24 | `s[:n]` is a prefix of `s` of length min(n, len(s)) |
| `TestGmail.ShownClientId` | test_gmail.py:24-27 | the displayed client id is at most 50 characters, a prefix of the id, and `N/A` when the key is absent |
| `TestGmail.Classify` | test_gmail.py:22-29 | `web` is checked first, then `installed`, else the type is unknown |
| `TestGmail.ModuleName` | test_gmail.py:47 | every `-` is replaced by `_` and nothing else changes |
| `TestGmail.ModuleNameHasNoHyphen` | test_gmail.py:47 | no `-` survives the mapping, and mapping again changes nothing |
| `App.Greet` | app.py:7-8 | the greeting is `Hello, <name>!`, from which the name can be read back |
| `App.SendEmail` | app.py:22-24 | the reply is `Email sent to <recipient> with subject '<subject>'.`; the body is unused and nothing is sent |
| `App.LinesAppend` | app.py:16-19 | the listing of two runs of snippets is the two listings concatenated (input order) |
| `App.LinesStartWithFirst` | app.py:16-19 | the listing starts with `- <first snippet>\n` |
| `App.ListEmails` | app.py:11-19 | exactly `No messages found.` for an empty list; otherwise `Last emails:\n` followed by one `- <snippet>\n` line per message, in input order, which is never the empty-list reply |

## Findings

| source | as written | input that shows it | evidently intended | confidence | as-written member | corrected member |
|---|---|---|---|---|---|---|
| gmail_client.py:56-60 | the refresh branch evaluates `Request()` and the flow branch `InstalledAppFlow`. gmail_client.py imports neither name, so both branches raise NameError before token.json is written | token.json absent and one `client_secret_x.json` file: NameError on `InstalledAppFlow` | import both names as test_gmail.py does; then refresh or run the flow and write token.json | high; not executed | `GmailClient.GetGmailServiceAsWritten` | `GmailClient.GetGmailService` |

## Left out

- OAuth, HTTP, the browser and the local callback server are not modelled. This covers `InstalledAppFlow`, `run_local_server`, `creds.refresh`, `flow_from_clientsecrets`, `step2_exchange`, `build(...)` and the Gmail REST calls. Their answers are inputs.
- google-auth's validity and expiry computation is not modelled: `creds.valid` and `creds.expired` are inputs (`Common.Status`). So is the credential's expiry time.
- Exceptions that the scripts leave uncaught are not modelled. These come from a corrupt token.json, a failed refresh, a failed or aborted flow, unreadable client-secret JSON in generate_token.py, and any error other than HttpError in the Gmail calls. A run is modelled only where those calls return.
- File-system I/O is not modelled. Globbing gives an ordered list of file names, token.json is an existence flag, and the write is the `written` field.
- Logging is not modelled, except the three warnings of gmail_auth.py's client-secret loading; the ValueError that follows a logged error is modelled. Dotenv loading, the FastMCP decorators and server, and agent_test/agent.py are not modelled either.
- The module-level diagnostic code is not modelled: gmail_client.py:14-41 and 67-85, test_gmail.py:8-63 and 87-103. That means the prints, JSON checks, `__import__` probes and the import-time call of `get_gmail_service`. Its classification, name mapping and subject lookup are modelled. The subject lookup of test_gmail.py:99-100 and gmail_client.py:80 is `GmailClient.Subject`.
- `GmailAuth.GetCredentials`: the repository's `get_stored_credentials` and `store_credentials` only raise NotImplementedError. Here they are oracles (`storeSucceeds`, `stored`), and raising gives `Err(NotImplemented)`. The authorization code is consumed by the exchange oracle, so the method takes no code parameter.
- `GmailAuth.GetAuthorizationUrl` returns the request's redirect URI, scopes and parameters, not the URL text oauth2client encodes from them.
- `GmailClient.ListMessages` requires that some scripted response ends the paging (an error, or a page without `nextPageToken`). Against a server that always returns a token, the source loops forever.
- `GmailClient.GetLastMessages`: how many messages the server returns for `maxResults=n` is the server's business. The model records the request and takes the listing as input.
- `App.ListEmails` formats a list of snippet strings. As written, app.py:13 passes `n` as the `service` argument of `get_last_messages`, and app.py:18 reads a `snippet` key that `get_last_messages` never produces. That wiring is not modelled.
- `TestGmail.ShownClientId`: a client id that is not a string gives `ClientIdNotString`. Python would print the slice of a list, or raise TypeError for other values.
- `Common.Refreshed` replaces only the access token. A real refresh also updates the expiry and may store a new refresh token returned by the token endpoint; neither is modelled.
