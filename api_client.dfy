/** The HTTP client of modules/api_client.py: a session configured with a
    retry policy and a connection pool, and four verbs that turn one HTTP
    exchange into the triple (body, status, "successful" | "failed").

    The exchange itself (the library's session, its retries and back-off)
    is a parameter: a function from the session and the keyword arguments
    of the library call to what came back. */
module ApiClient {
  import opened Wrappers
  import opened Json

  datatype Method = GET | POST | PUT | DELETE

  /** The methods the retry policy applies to. */
  const RetryMethods: seq<Method> := [GET, POST, PUT, DELETE]

  /** Statuses that force a retry: 429 Too Many Requests (section 4 of
      RFC 6585) and 500, 502, 503, 504. */
  const StatusForcelist: seq<int> := [429, 500, 502, 503, 504]

  /** Statuses reported as "successful": 200 OK, 201 Created, 204 No Content. */
  const SuccessCodes: set<int> := {200, 201, 204}

  // ---------------------------------------------------------------------
  // Retry policy

  /** A release number of `requests`, compared as a release tuple. */
  datatype Version = Version(major: nat, minor: nat, micro: nat)

  /** `v >= w`, lexicographically. */
  predicate AtLeast(v: Version, w: Version) {
    v.major > w.major ||
    (v.major == w.major && (v.minor > w.minor || (v.minor == w.minor && v.micro >= w.micro)))
  }

  /** The code tests the release of `requests` against 2.26.0 (modules/api_client.py:53)
      to pick the methods keyword; the keyword itself belongs to urllib3's `Retry`. */
  const AllowedMethodsSince := Version(2, 26, 0)

  /** The keyword arguments handed to `Retry(...)`; None marks a keyword not passed. */
  datatype RetryParams = RetryParams(
    total: int,
    backoffFactor: real,
    statusForcelist: seq<int>,
    allowedMethods: Option<seq<Method>>,
    methodWhitelist: Option<seq<Method>>)

  /** The retry keywords the client is meant to pass for these settings and this release of `requests`. */
  predicate IsRetryPolicy(p: RetryParams, maxRetries: int, backoffFactor: real, requestsVersion: Version) {
    p.total == maxRetries &&
    p.backoffFactor == backoffFactor &&
    p.statusForcelist == StatusForcelist &&
    if AtLeast(requestsVersion, AllowedMethodsSince) then
      p.allowedMethods == Some(RetryMethods) && p.methodWhitelist == None
    else
      p.methodWhitelist == Some(RetryMethods) && p.allowedMethods == None
  }

  /** Builds `retry_params`: the three fixed entries first, then the methods
      under the keyword the code picks by the release of `requests`. */
  method BuildRetryParams(maxRetries: int, backoffFactor: real, requestsVersion: Version) returns (p: RetryParams)
    ensures IsRetryPolicy(p, maxRetries, backoffFactor, requestsVersion)
  {
    p := RetryParams(maxRetries, backoffFactor, StatusForcelist, None, None);
    if AtLeast(requestsVersion, AllowedMethodsSince) {
      p := p.(allowedMethods := Some(RetryMethods));
    } else {
      p := p.(methodWhitelist := Some(RetryMethods));
    }
  }

  /** Exactly one methods keyword is passed, and it lists exactly GET, POST,
      PUT and DELETE; `allowed_methods` is used from `requests` 2.26.0 on. */
  lemma ExactlyOneMethodsKeyword(p: RetryParams, maxRetries: int, backoffFactor: real, v: Version)
    requires IsRetryPolicy(p, maxRetries, backoffFactor, v)
    ensures p.allowedMethods.Some? != p.methodWhitelist.Some?
    ensures p.allowedMethods.Some? <==> AtLeast(v, Version(2, 26, 0))
    ensures (if p.allowedMethods.Some? then p.allowedMethods.value else p.methodWhitelist.value)
      == [GET, POST, PUT, DELETE]
    ensures p.total == maxRetries && p.backoffFactor == backoffFactor
    ensures forall s :: s in p.statusForcelist <==> s in {429, 500, 502, 503, 504}
  {
  }

  // ---------------------------------------------------------------------
  // Session and adapter (the library objects the client configures)

  /** A transport adapter: the retry policy and the connection-pool ceiling. */
  class HTTPAdapter {
    const maxRetries: RetryParams
    const poolMaxsize: int

    constructor (maxRetries: RetryParams, poolMaxsize: int)
      ensures this.maxRetries == maxRetries && this.poolMaxsize == poolMaxsize
    {
      this.maxRetries := maxRetries;
      this.poolMaxsize := poolMaxsize;
    }
  }

  /** A session: the adapter mounted for each URL prefix. */
  class Session {
    var mounts: map<string, HTTPAdapter>
    var closed: bool

    constructor ()
      ensures mounts == map[] && !closed
    {
      mounts := map[];
      closed := false;
    }

    method Mount(prefix: string, adapter: HTTPAdapter)
      modifies this
      ensures mounts == old(mounts)[prefix := adapter] && closed == old(closed)
    {
      mounts := mounts[prefix := adapter];
    }

    method Close()
      modifies this
      ensures closed && mounts == old(mounts)
    {
      closed := true;
    }
  }

  /** One adapter, with this retry policy and pool ceiling, serves both
      `https://` and `http://`, and nothing else is mounted. */
  ghost predicate ConfiguredSession(s: Session, maxRetries: int, backoffFactor: real, concurrency: int, requestsVersion: Version)
    reads s
  {
    s.mounts.Keys == {"https://", "http://"} &&
    s.mounts["https://"] == s.mounts["http://"] &&
    s.mounts["https://"].poolMaxsize == concurrency &&
    IsRetryPolicy(s.mounts["https://"].maxRetries, maxRetries, backoffFactor, requestsVersion) &&
    !s.closed
  }

  // ---------------------------------------------------------------------
  // Requests and their outcomes

  type Headers = map<string, string>
  type QueryParams = map<string, Json>
  type Files = map<string, seq<bv8>>

  /** The keyword arguments of one library call (`session.get(url, headers=..., params=...)` etc.). */
  datatype Wire = Wire(
    verb: Method,
    url: string,
    headers: Headers,
    params: Option<QueryParams>,
    json: Option<Json>,
    files: Option<Files>)

  /** What one library call ends in: a `RequestException` with its message,
      or a response with its status, its text and that text decoded. */
  datatype Exchange =
    | RequestException(message: string)
    | Answered(status: int, text: string, decoded: Json)

  type Network = (Session, Wire) -> Exchange

  datatype Tag = Successful | Failed

  /** The triple every verb returns. */
  datatype Outcome = Outcome(body: Json, status: int, tag: Tag)

  /** The classification shared by all four verbs. */
  function Classify(e: Exchange): Outcome {
    match e
    case RequestException(message) =>
      Outcome(JObject(map["error" := JString(message)]), 500, Failed)
    case Answered(status, text, decoded) =>
      var body := if text != "" then decoded else EmptyObject;
      if status in SuccessCodes then Outcome(body, status, Successful)
      else Outcome(body, status, Failed)
  }

  /** A response keeps its status; it is "successful" exactly for 200, 201
      and 204, all of them 2xx statuses (section 15.3 of RFC 9110); an empty
      text gives the body `{}` whatever the status, any other text its
      decoded value. */
  lemma ClassifyAnswered(status: int, text: string, decoded: Json)
    ensures Classify(Answered(status, text, decoded)).status == status
    ensures Classify(Answered(status, text, decoded)).tag == Successful <==> status in {200, 201, 204}
    ensures Classify(Answered(status, text, decoded)).tag == Successful ==> 200 <= status <= 299
    ensures text == "" ==> Classify(Answered(status, text, decoded)).body == JObject(map[])
    ensures text != "" ==> Classify(Answered(status, text, decoded)).body == decoded
  {
  }

  /** A transport exception does not escape: it becomes `{"error": message}`
      with status 500, "failed". Callers cannot tell it from a real 500
      response whose body is that same object. */
  lemma RequestExceptionLooksLikeServerError(message: string, text: string)
    requires text != ""
    ensures Classify(RequestException(message)) == Outcome(JObject(map["error" := JString(message)]), 500, Failed)
    ensures Classify(RequestException(message)) == Classify(Answered(500, text, JObject(map["error" := JString(message)])))
  {
  }

  /** A status that forces a retry is never reported as "successful". */
  lemma ForcedStatusesAreFailures(status: int, text: string, decoded: Json)
    requires status in StatusForcelist
    ensures Classify(Answered(status, text, decoded)).tag == Failed
  {
  }

  /** The keyword arguments of `session.post`/`session.put`: multipart files
      when `files` is truthy (then `data` is not sent), the JSON body `data`
      otherwise. */
  function BodyCall(verb: Method, url: string, headers: Headers, data: Option<Json>, files: Option<Files>): Wire {
    if FilesTruthy(files) then Wire(verb, url, headers, None, None, files)
    else Wire(verb, url, headers, None, data, None)
  }

  /** Python truthiness of `files`: None and the empty dict are falsy. */
  predicate FilesTruthy(files: Option<Files>) {
    files.Some? && |files.value| > 0
  }

  // ---------------------------------------------------------------------
  // The client

  class APIClient {
    var maxRetries: int
    var backoffFactor: real
    var concurrency: int
    var session: Session

    /** The release of `requests` is a parameter here; the source reads it from the library. */
    constructor (requestsVersion: Version, maxRetries: int := 5, backoffFactor: real := 1.0, concurrency: int := 10)
      ensures this.maxRetries == maxRetries && this.backoffFactor == backoffFactor && this.concurrency == concurrency
      ensures fresh(session)
      ensures ConfiguredSession(session, maxRetries, backoffFactor, concurrency, requestsVersion)
    {
      this.maxRetries := maxRetries;
      this.backoffFactor := backoffFactor;
      this.concurrency := concurrency;
      var s := CreateSession(maxRetries, backoffFactor, concurrency, requestsVersion);
      session := s;
    }

    /** `_create_session`: one adapter carrying the retry policy and the pool
        ceiling, mounted for both schemes on a new session. */
    static method CreateSession(maxRetries: int, backoffFactor: real, concurrency: int, requestsVersion: Version)
      returns (session: Session)
      ensures ConfiguredSession(session, maxRetries, backoffFactor, concurrency, requestsVersion)
      ensures fresh(session) && fresh(session.mounts["https://"])
    {
      var retryParams := BuildRetryParams(maxRetries, backoffFactor, requestsVersion);
      var adapter := new HTTPAdapter(retryParams, concurrency);
      session := new Session();
      session.Mount("https://", adapter);
      session.Mount("http://", adapter);
    }

    method GetRequest(url: string, headers: Headers, params: Option<QueryParams>, network: Network)
      returns (r: Outcome)
      ensures r == Classify(network(session, Wire(GET, url, headers, params, None, None)))
    {
      var exchange := network(session, Wire(GET, url, headers, params, None, None));
      r := Classify(exchange);
    }

    method PostRequest(url: string, headers: Headers, data: Option<Json>, files: Option<Files>, network: Network)
      returns (r: Outcome)
      ensures FilesTruthy(files) ==> r == Classify(network(session, Wire(POST, url, headers, None, None, files)))
      ensures !FilesTruthy(files) ==> r == Classify(network(session, Wire(POST, url, headers, None, data, None)))
    {
      var exchange := network(session, BodyCall(POST, url, headers, data, files));
      r := Classify(exchange);
    }

    method PutRequest(url: string, headers: Headers, data: Option<Json>, files: Option<Files>, network: Network)
      returns (r: Outcome)
      ensures FilesTruthy(files) ==> r == Classify(network(session, Wire(PUT, url, headers, None, None, files)))
      ensures !FilesTruthy(files) ==> r == Classify(network(session, Wire(PUT, url, headers, None, data, None)))
    {
      var exchange := network(session, BodyCall(PUT, url, headers, data, files));
      r := Classify(exchange);
    }

    method DeleteRequest(url: string, headers: Headers, network: Network)
      returns (r: Outcome)
      ensures r == Classify(network(session, Wire(DELETE, url, headers, None, None, None)))
    {
      var exchange := network(session, Wire(DELETE, url, headers, None, None, None));
      r := Classify(exchange);
    }

    method Close()
      modifies session
      ensures session.closed && session.mounts == old(session.mounts)
    {
      session.Close();
    }
  }

  /** A client built with no arguments retries 5 times, backs off by a
      factor of 1 and pools up to 10 connections. */
  method DefaultClient(requestsVersion: Version) returns (client: APIClient)
    ensures fresh(client)
    ensures client.maxRetries == 5 && client.backoffFactor == 1.0 && client.concurrency == 10
    ensures ConfiguredSession(client.session, 5, 1.0, 10, requestsVersion)
  {
    client := new APIClient(requestsVersion);
  }
}
