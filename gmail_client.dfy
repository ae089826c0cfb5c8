/** gmail_client.py: paging through the message list, the last messages
    with their subjects, and the module's own credential chain. */
module GmailClient {
  import opened Common
  import TokenChain

  const SCOPES: seq<string> := [
    "https://www.googleapis.com/auth/gmail.readonly",
    "https://www.googleapis.com/auth/gmail.send"
  ]
  const NO_SUBJECT := "(bez předmětu)"
  const UNAUTHORIZED := 401

  datatype MessageRef = MessageRef(id: string, threadId: string)

  /** One `users().messages().list(...)` request. */
  datatype ListRequest = ListRequest(
    user: string,
    query: Option<string>,
    maxResults: Option<int>,
    pageToken: Option<string>)

  /** A response body: the `messages` and `nextPageToken` keys may be absent. */
  datatype Page = Page(messages: Option<seq<MessageRef>>, nextPageToken: Option<string>)

  /** What `execute()` gives back: a page, or an HttpError with its status. */
  datatype ListResponse = Listed(page: Page) | HttpError(status: int)

  /** `'nextPageToken' in response` */
  predicate HasNext(r: ListResponse)
  {
    r.Listed? && r.page.nextPageToken.Some?
  }

  /** What a response adds to the list: its `messages`, or nothing. */
  function MessagesOf(r: ListResponse): seq<MessageRef>
  {
    if r.Listed? && r.page.messages.Some? then r.page.messages.value else []
  }

  /** The messages of a run of responses, in page order. */
  function Collected(rs: seq<ListResponse>): seq<MessageRef>
  {
    if rs == [] then [] else Collected(rs[..|rs| - 1]) + MessagesOf(rs[|rs| - 1])
  }

  lemma {:induction false} CollectedAppend(a: seq<ListResponse>, b: seq<ListResponse>)
    ensures Collected(a + b) == Collected(a) + Collected(b)
    decreases |b|
  {
    if b == [] {
      assert a + b == a;
    } else {
      assert (a + b)[..|a + b| - 1] == a + b[..|b| - 1];
      CollectedAppend(a, b[..|b| - 1]);
    }
  }

  /** A page without a `messages` key contributes nothing. */
  lemma CollectedSkipsEmptyPage(a: seq<ListResponse>, r: ListResponse, b: seq<ListResponse>)
    requires r.HttpError? || r.page.messages.None?
    ensures Collected(a + [r] + b) == Collected(a + b)
  {
    CollectedAppend(a + [r], b);
    CollectedAppend(a, [r]);
    CollectedAppend(a, b);
    assert [r][..0] == [];
  }

  /** A message is collected iff some page lists it. */
  lemma {:induction false} CollectedMembership(rs: seq<ListResponse>, m: MessageRef)
    ensures m in Collected(rs) <==> exists i :: 0 <= i < |rs| && m in MessagesOf(rs[i])
  {
    if rs != [] {
      var init := rs[..|rs| - 1];
      var last := rs[|rs| - 1];
      CollectedMembership(init, m);
      assert Collected(rs) == Collected(init) + MessagesOf(last);
      assert forall i :: 0 <= i < |init| ==> init[i] == rs[i];
      if m in Collected(rs) {
        if m in MessagesOf(last) {
          assert 0 <= |rs| - 1 < |rs| && m in MessagesOf(rs[|rs| - 1]);
        } else {
          assert m in Collected(init);
        }
      }
      if exists i :: 0 <= i < |rs| && m in MessagesOf(rs[i]) {
        var i :| 0 <= i < |rs| && m in MessagesOf(rs[i]);
        if i < |init| {
          assert m in MessagesOf(init[i]);
        }
      }
    }
  }

  /** Some answer of the server ends the paging: an error or a page without
      `nextPageToken`. */
  predicate PagingEnds(responses: seq<ListResponse>)
  {
    exists k :: 0 <= k < |responses| && !HasNext(responses[k])
  }

  /** How `ListMessages` ends. */
  datatype Listing =
    | Messages(messages: seq<MessageRef>)
    | RaisedNotImplemented     // HttpError 401: credentials revoked
    | ReturnedNone             // any other HttpError, logged

  function OnHttpError(status: int): Listing
  {
    if status == UNAUTHORIZED then RaisedNotImplemented else ReturnedNone
  }

  /** `ListMessages`: the server answers the i-th request with `responses[i]`. */
  method ListMessages(user: string, query: string, responses: seq<ListResponse>)
    returns (listing: Listing, requests: seq<ListRequest>)
    requires PagingEnds(responses)
    ensures 1 <= |requests| <= |responses|
    ensures requests[0] == ListRequest(user, Some(query), None, None)
    // another request exactly while the last response has a nextPageToken, and with that token
    ensures forall j :: 0 <= j < |requests| - 1 ==>
              HasNext(responses[j]) &&
              requests[j + 1] == ListRequest(user, Some(query), None, responses[j].page.nextPageToken)
    ensures !HasNext(responses[|requests| - 1])
    // the pages' messages, concatenated in page order
    ensures responses[|requests| - 1].Listed? ==> listing == Messages(Collected(responses[..|requests|]))
    ensures responses[|requests| - 1].HttpError? ==> listing == OnHttpError(responses[|requests| - 1].status)
  {
    ghost var k :| 0 <= k < |responses| && !HasNext(responses[k]);
    requests := [ListRequest(user, Some(query), None, None)];
    var i := 0;
    var response := responses[i];
    if response.HttpError? {
      return OnHttpError(response.status), requests;
    }
    var messages := [];
    if response.page.messages.Some? {
      messages := messages + response.page.messages.value;
    }
    assert responses[..1] == [response];
    while HasNext(response)
      invariant 0 <= i <= k
      invariant |requests| == i + 1
      invariant response == responses[i] && response.Listed?
      invariant requests[0] == ListRequest(user, Some(query), None, None)
      invariant forall j :: 0 <= j < |requests| - 1 ==>
                  HasNext(responses[j]) &&
                  requests[j + 1] == ListRequest(user, Some(query), None, responses[j].page.nextPageToken)
      invariant messages == Collected(responses[..i + 1])
      decreases k - i
    {
      var pageToken := response.page.nextPageToken.value;
      ghost var previous := response;
      requests := requests + [ListRequest(user, Some(query), None, Some(pageToken))];
      i := i + 1;
      assert responses[i - 1] == previous && requests[i] == ListRequest(user, Some(query), None, previous.page.nextPageToken);
      response := responses[i];
      if response.HttpError? {
        return OnHttpError(response.status), requests;
      }
      if response.page.messages.Some? {
        messages := messages + response.page.messages.value;
      }
      assert responses[..i + 1][..i] == responses[..i];
      assert MessagesOf(responses[..i + 1][i]) == MessagesOf(response);
    }
    listing := Messages(messages);
  }

  // ---------------------------------------------------------------------
  // Subjects of the last messages

  datatype Header = Header(name: string, value: string)
  datatype Payload = Payload(headers: Option<seq<Header>>)
  datatype MessageDetail = MessageDetail(payload: Option<Payload>)

  /** The value of the first header named exactly `Subject`. */
  function FirstSubject(headers: seq<Header>): (r: Option<string>)
    ensures r.None? <==> forall i :: 0 <= i < |headers| ==> headers[i].name != "Subject"
    ensures r.Some? ==> exists i :: && 0 <= i < |headers|
                                    && headers[i].name == "Subject" && headers[i].value == r.value
                                    && forall j :: 0 <= j < i ==> headers[j].name != "Subject"
  {
    if headers == [] then None
    else if headers[0].name == "Subject" then Some(headers[0].value)
    else
      var r := FirstSubject(headers[1..]);
      assert forall i :: 1 <= i < |headers| ==> headers[i] == headers[1..][i - 1];
      r
  }

  /** `msg_detail.get("payload", {}).get("headers", [])` */
  function HeadersOf(detail: MessageDetail): seq<Header>
  {
    if detail.payload.Some? && detail.payload.value.headers.Some? then detail.payload.value.headers.value else []
  }

  /** The subject shown for a message: the value of its first `Subject`
      header, or the default when it has none (also when it has no payload
      or no headers). */
  function Subject(detail: MessageDetail): (r: string)
    ensures forall i :: 0 <= i < |HeadersOf(detail)| && HeadersOf(detail)[i].name == "Subject" &&
                        (forall j :: 0 <= j < i ==> HeadersOf(detail)[j].name != "Subject") ==>
              r == HeadersOf(detail)[i].value
    ensures (forall i :: 0 <= i < |HeadersOf(detail)| ==> HeadersOf(detail)[i].name != "Subject") ==>
              r == NO_SUBJECT
    ensures detail.payload.None? ==> r == NO_SUBJECT
  {
    match FirstSubject(HeadersOf(detail))
    case Some(s) => s
    case None => NO_SUBJECT
  }

  /** What `messages().get(...).execute()` gives back. */
  datatype Fetched = Got(detail: MessageDetail) | FetchError(status: int)

  datatype Entry = Entry(id: string, subject: string)

  predicate AllFetched(messages: seq<MessageRef>, fetch: string -> Fetched)
  {
    forall i :: 0 <= i < |messages| ==> fetch(messages[i].id).Got?
  }

  /** `get_last_messages`: `listed` answers the list request, `fetch` the
      get request for each id; `fetched` are the ids requested, in order. */
  method GetLastMessages(n: int, listed: ListResponse, fetch: string -> Fetched)
    returns (output: seq<Entry>, request: ListRequest, fetched: seq<string>)
    ensures request == ListRequest("me", None, Some(n), None)
    // an HttpError, on the list or on any get, yields [] instead of raising
    ensures listed.HttpError? ==> output == [] && fetched == []
    ensures !AllFetched(MessagesOf(listed), fetch) ==> output == []
    // one entry per listed message, in order, with the id unchanged
    ensures AllFetched(MessagesOf(listed), fetch) ==>
              && |output| == |MessagesOf(listed)|
              && forall i :: 0 <= i < |output| ==>
                   output[i] == Entry(MessagesOf(listed)[i].id, Subject(fetch(MessagesOf(listed)[i].id).detail))
    // the messages are fetched in list order, stopping at the first error
    ensures |fetched| <= |MessagesOf(listed)|
    ensures forall i :: 0 <= i < |fetched| ==> fetched[i] == MessagesOf(listed)[i].id
    ensures forall i :: 0 <= i < |fetched| - 1 ==> fetch(fetched[i]).Got?
    ensures AllFetched(MessagesOf(listed), fetch) ==> |fetched| == |MessagesOf(listed)|
    ensures !AllFetched(MessagesOf(listed), fetch) ==>
              |fetched| > 0 && fetch(fetched[|fetched| - 1]).FetchError?
  {
    request := ListRequest("me", None, Some(n), None);
    fetched := [];
    if listed.HttpError? {
      return [], request, fetched;
    }
    var messages := MessagesOf(listed);
    output := [];
    var i := 0;
    while i < |messages|
      invariant 0 <= i <= |messages|
      invariant |output| == i && |fetched| == i
      invariant forall j :: 0 <= j < i ==>
                  && fetched[j] == messages[j].id && fetch(messages[j].id).Got?
                  && output[j] == Entry(messages[j].id, Subject(fetch(messages[j].id).detail))
    {
      var id := messages[i].id;
      fetched := fetched + [id];
      var detail := fetch(id);
      if detail.FetchError? {
        return [], request, fetched;
      }
      output := output + [Entry(id, Subject(detail.detail))];
      i := i + 1;
    }
  }

  // ---------------------------------------------------------------------
  // The module's credential chain

  /** `get_gmail_service` as written: the refresh branch names `Request` and
      the flow branch names `InstalledAppFlow`, neither of which the module
      imports, so both raise NameError before token.json is written. */
  method GetGmailServiceAsWritten(tokenFileExists: bool, secretFiles: seq<string>, lib: Library)
    returns (run: Run)
    ensures InitiallyValid(FileStart(tokenFileExists, lib)) ==> run.result == Ok(lib.fileCredential)
    ensures WillRefresh(FileStart(tokenFileExists, lib)) ==> run.result == Err(NameNotDefined("Request"))
    ensures FlowNeeded(FileStart(tokenFileExists, lib)) ==> run.result == Err(NameNotDefined("InstalledAppFlow"))
    // token.json is never written, whatever the inputs
    ensures !run.refreshed && run.flow == None && run.written == None
  {
    var start: Option<Loaded> := None;
    var tier := NoCredential;
    if tokenFileExists {
      start := Some(Loaded(lib.fileCredential, lib.fileStatus));
      tier := FileTier;
    }
    if start.None? || !start.value.status.valid {
      if start.Some? && start.value.status.expired && Truthy(start.value.credential.refreshToken) {
        return Run(tier, false, None, None, [], Err(NameNotDefined("Request")));
      } else {
        return Run(tier, false, None, None, [], Err(NameNotDefined("InstalledAppFlow")));
      }
    }
    return Run(tier, false, None, None, [], Ok(start.value.credential));
  }

  /** `get_gmail_service` with `Request` and `InstalledAppFlow` imported:
      token.json, a single refresh, or the flow from the first client-secret file. */
  method GetGmailService(tokenFileExists: bool, secretFiles: seq<string>, lib: Library)
    returns (run: Run)
    ensures run.tier == (if tokenFileExists then FileTier else NoCredential) && run.warnings == []
    // a valid credential is used as it is
    ensures InitiallyValid(FileStart(tokenFileExists, lib)) ==>
              && !run.refreshed && run.flow == None && run.written == None
              && run.result == Ok(lib.fileCredential)
    // a refresh iff the credential is expired and has a refresh token; then no flow
    ensures run.refreshed <==> WillRefresh(FileStart(tokenFileExists, lib))
    ensures run.refreshed ==>
              run.flow == None && run.result == Ok(Refreshed(lib.fileCredential, lib.newAccessToken))
    // otherwise the flow from the first client-secret file, on port 8080 with
    // the browser opened, or IndexError when there is no such file
    ensures run.flow.Some? <==> FlowNeeded(FileStart(tokenFileExists, lib)) && |secretFiles| > 0
    ensures run.flow.Some? ==>
              && run.flow.value == FlowRun(SecretFile(secretFiles[0]), SCOPES, TokenChain.FLOW_PORT, None, true)
              && run.result == Ok(lib.flowCredential)
    ensures run.result.Err? <==> FlowNeeded(FileStart(tokenFileExists, lib)) && |secretFiles| == 0
    ensures run.result.Err? ==> run.result.error == NoClientSecretFile
    // token.json receives the resulting credential iff it was not valid to begin with
    ensures run.written.Some? <==> !InitiallyValid(FileStart(tokenFileExists, lib)) && run.result.Ok?
    ensures run.written.Some? ==> run.written == Some(run.result.value)
  {
    run := TokenChain.ResolveFromTokenFile(SCOPES, tokenFileExists, secretFiles, lib);
  }
}
