/** The token-driven pagination walk of modules/get_issues.py.

    The client is an abstract server: a function from the arguments of one
    `client.get_request(target, path, params=...)` call to the response it
    yields. Each request after the first carries the continuation token of the
    page before it; the walk stops when a page carries no token (or an empty
    one) and raises when the client hands back a falsy response. */
module Issues {
  import opened Wrappers
  import opened Json

  const Target := "Jira"
  const SearchPath := "/rest/api/3/search/jql"
  const MaxResults := 500
  const Fields := "summary,description,status"
  const Jql := "ORDER BY created DESC"
  const FailurePrefix := "Failed to fetch issues: "

  /** The `params` dict of one request; `nextPageToken` is None when the key is absent. */
  datatype Params = Params(maxResults: int, fields: string, jql: string, nextPageToken: Option<string>)

  /** The decoded body of one page; an absent key is None. */
  datatype Data = Data(issues: Option<seq<Json>>, nextPageToken: Option<string>)

  /** What `client.get_request` hands back: a falsy value (shown as `repr` in
      the exception message) or a response whose `.json()` is `data`. */
  datatype Response = Falsy(repr: string) | Truthy(data: Data)

  type Server = (string, string, Params) -> Response

  /** Python truthiness of the token: None and "" are falsy. */
  predicate TokenTruthy(t: Option<string>) {
    t.Some? && t.value != ""
  }

  /** The params dict built at the head of each round, for the current token. */
  function ParamsFor(token: Option<string>): Params {
    Params(MaxResults, Fields, Jql, if TokenTruthy(token) then token else None)
  }

  /** `data.get("issues", [])`. */
  function IssuesOf(r: Response): seq<Json> {
    if r.Truthy? && r.data.issues.Some? then r.data.issues.value else []
  }

  /** `data.get("nextPageToken")`; a falsy response carries none. */
  function TokenOf(r: Response): Option<string> {
    if r.Truthy? then r.data.nextPageToken else None
  }

  /** The walk ends at this response: it raises, or the page has no usable token. */
  predicate Halts(r: Response) {
    r.Falsy? || !TokenTruthy(r.data.nextPageToken)
  }

  /** The params of the k-th request (0-based) of the walk against `server`. */
  function RequestAt(server: Server, k: nat): Params
    decreases k, 0
  {
    if k == 0 then ParamsFor(None)
    else ParamsFor(TokenOf(ResponseAt(server, k - 1)))
  }

  function ResponseAt(server: Server, k: nat): Response
    decreases k, 1
  {
    server(Target, SearchPath, RequestAt(server, k))
  }

  predicate HaltsAt(server: Server, k: nat) {
    Halts(ResponseAt(server, k))
  }

  /** The server eventually answers with a page that ends the walk. The walk
      itself gives no such guarantee: against any other server it never returns. */
  ghost predicate Terminates(server: Server) {
    exists k: nat :: HaltsAt(server, k)
  }

  /** The issues of the first n responses, concatenated in page order. */
  function Collected(server: Server, n: nat): seq<Json> {
    if n == 0 then [] else Collected(server, n - 1) + IssuesOf(ResponseAt(server, n - 1))
  }

  /** get_issues(client): walk the pages, return the issues or raise.
      `sent` is the sequence of params the client was called with. */
  method GetIssues(server: Server) returns (result: Fetched<Json>, sent: seq<Params>)
    requires Terminates(server)
    ensures |sent| >= 1
    // the walk stops at the first halting page and at no earlier one
    ensures HaltsAt(server, |sent| - 1)
    ensures forall j :: 0 <= j < |sent| - 1 ==> !HaltsAt(server, j)
    ensures forall j :: 0 <= j < |sent| ==> sent[j] == RequestAt(server, j)
    // request shaping
    ensures sent[0].nextPageToken == None
    ensures forall j :: 0 <= j < |sent| - 1 ==>
      TokenTruthy(TokenOf(ResponseAt(server, j))) &&
      sent[j + 1].nextPageToken == TokenOf(ResponseAt(server, j))
    ensures forall j :: 0 <= j < |sent| ==>
      sent[j].maxResults == MaxResults && sent[j].fields == Fields && sent[j].jql == Jql
    // a falsy response raises and nothing is returned; otherwise every page's issues, in order
    ensures ResponseAt(server, |sent| - 1).Falsy? ==>
      result == Raised(FailurePrefix + ResponseAt(server, |sent| - 1).repr)
    ensures ResponseAt(server, |sent| - 1).Truthy? ==>
      result == Returned(Collected(server, |sent|))
  {
    var issues: seq<Json> := [];
    var nextPageToken: Option<string> := None;
    sent := [];
    ghost var bound: nat :| HaltsAt(server, bound);
    while true
      invariant forall j :: 0 <= j < |sent| ==> sent[j] == RequestAt(server, j) && !HaltsAt(server, j)
      invariant |sent| <= bound
      invariant nextPageToken == if |sent| == 0 then None else TokenOf(ResponseAt(server, |sent| - 1))
      invariant issues == Collected(server, |sent|)
      decreases bound - |sent|
    {
      var params := Params(MaxResults, Fields, Jql, None);
      if TokenTruthy(nextPageToken) {
        params := params.(nextPageToken := nextPageToken);
      }
      assert params == RequestAt(server, |sent|);
      var response := server(Target, SearchPath, params);
      sent := sent + [params];
      assert response == ResponseAt(server, |sent| - 1);
      if response.Falsy? {
        RequestsShaped(server, sent);
        result := Raised(FailurePrefix + response.repr);
        return;
      }
      var data := response.data;
      issues := issues + (if data.issues.Some? then data.issues.value else []);
      nextPageToken := data.nextPageToken;
      if !TokenTruthy(nextPageToken) {
        break;
      }
    }
    RequestsShaped(server, sent);
    result := Returned(issues);
  }

  /** What every request of a walk looks like, given that the walk went on
      past every page but the last. */
  lemma RequestsShaped(server: Server, sent: seq<Params>)
    requires |sent| >= 1
    requires forall j :: 0 <= j < |sent| ==> sent[j] == RequestAt(server, j)
    requires forall j :: 0 <= j < |sent| - 1 ==> !HaltsAt(server, j)
    ensures sent[0].nextPageToken == None
    ensures forall j :: 0 <= j < |sent| - 1 ==>
      TokenTruthy(TokenOf(ResponseAt(server, j))) &&
      sent[j + 1].nextPageToken == TokenOf(ResponseAt(server, j))
    ensures forall j :: 0 <= j < |sent| ==>
      sent[j].maxResults == MaxResults && sent[j].fields == Fields && sent[j].jql == Jql
  {
    forall j | 0 <= j < |sent| - 1
      ensures TokenTruthy(TokenOf(ResponseAt(server, j))) &&
        sent[j + 1].nextPageToken == TokenOf(ResponseAt(server, j))
    {
      assert !HaltsAt(server, j);
    }
  }

  /** Two responses that agree on everything the walk's control flow looks at. */
  predicate SameControl(r1: Response, r2: Response) {
    r1.Falsy? == r2.Falsy? && TokenOf(r1) == TokenOf(r2)
  }

  /** Termination is driven by the token alone: two servers that agree on
      falsiness and tokens but not on the issues they return (short pages,
      full pages, missing lists) are asked the same requests and halt at the
      same page. */
  lemma {:induction false} HaltingIgnoresIssues(s1: Server, s2: Server, k: nat)
    requires forall p :: SameControl(s1(Target, SearchPath, p), s2(Target, SearchPath, p))
    ensures RequestAt(s1, k) == RequestAt(s2, k)
    ensures HaltsAt(s1, k) == HaltsAt(s2, k)
  {
    if k > 0 {
      HaltingIgnoresIssues(s1, s2, k - 1);
    }
    assert SameControl(s1(Target, SearchPath, RequestAt(s1, k)), s2(Target, SearchPath, RequestAt(s1, k)));
  }

  /** A server that always answers with a usable token, the same one or not,
      never lets the walk end: the code has no bound on the number of rounds. */
  lemma EndlessTokensNeverEnd(server: Server)
    requires forall p :: !Halts(server(Target, SearchPath, p))
    ensures !Terminates(server)
  {
    forall k: nat
      ensures !HaltsAt(server, k)
    {
      assert !Halts(server(Target, SearchPath, RequestAt(server, k)));
    }
  }

  /** The accumulator is append-only: the issues gathered after m pages stay,
      in the same order, at the front of the issues gathered after any later page. */
  lemma {:induction false} CollectedGrowsByAppending(server: Server, m: nat, n: nat)
    requires m <= n
    ensures Collected(server, m) <= Collected(server, n)
  {
    if m < n {
      CollectedGrowsByAppending(server, m, n - 1);
    }
  }
}
