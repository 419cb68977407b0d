/** The offset-driven pagination walk of modules/get_projects.py.

    Requests start at offset 0 and move forward by the page size. After each
    page the walk stops when the decoded response object, counted by its
    TOP-LEVEL ENTRIES (`len(data)`), has fewer entries than the page size.
    The record count of `values` plays no part in that test. A falsy
    response raises.

    Besides the walk as written, the module holds the walk with the stop
    test on the record count. That is what the authors evidently meant (see
    AsWrittenDropsRecords and RecordCountWalkReturnsCollection). */
module Projects {
  import opened Wrappers
  import opened Json

  const Target := "Jira"
  const SearchPath := "rest/api/3/project/search"
  const MaxResults := 50
  const Expand := "description,lead,url"
  const FailurePrefix := "Failed to fetch projects: "

  /** The `params` dict of one request. */
  datatype Params = Params(startAt: int, maxResults: int, expand: string)

  /** The decoded response object: its `values` entry (None when the key is
      absent) and how many OTHER top-level entries it has. */
  datatype Data = Data(values: Option<seq<Json>>, otherKeys: nat)
  {
    /** `len(data)`: the number of top-level entries of the object. */
    function Len(): nat {
      otherKeys + if values.Some? then 1 else 0
    }
  }

  datatype Response = Falsy(repr: string) | Truthy(data: Data)

  type Server = (string, string, Params) -> Response

  /** Which quantity the stop test compares with the page size. */
  datatype StopRule =
    | TopLevelEntries  // `len(data) < max_results`, as written
    | RecordCount      // `len(values) < max_results`, as intended

  /** `data.get("values", [])`. */
  function ValuesOf(r: Response): seq<Json> {
    if r.Truthy? && r.data.values.Some? then r.data.values.value else []
  }

  /** The walk ends at this response: it raises, or the stop test fires. */
  predicate Halts(rule: StopRule, r: Response) {
    r.Falsy? ||
    match rule
    case TopLevelEntries => r.data.Len() < MaxResults
    case RecordCount => |ValuesOf(r)| < MaxResults
  }

  /** The params of the k-th request (0-based). */
  function RequestAt(k: nat): Params {
    Params(MaxResults * k, MaxResults, Expand)
  }

  function ResponseAt(server: Server, k: nat): Response {
    server(Target, SearchPath, RequestAt(k))
  }

  predicate HaltsAt(rule: StopRule, server: Server, k: nat) {
    Halts(rule, ResponseAt(server, k))
  }

  /** The server eventually answers with a page that ends the walk; against
      any other server the walk never returns. */
  ghost predicate Terminates(rule: StopRule, server: Server) {
    exists k: nat :: HaltsAt(rule, server, k)
  }

  /** The values of the first n responses, concatenated in page order. */
  function Collected(server: Server, n: nat): seq<Json> {
    if n == 0 then [] else Collected(server, n - 1) + ValuesOf(ResponseAt(server, n - 1))
  }

  /** get_projects(client), with its stop test as written. `sent` is the
      sequence of params the client was called with. */
  method GetProjects(server: Server) returns (result: Fetched<Json>, sent: seq<Params>)
    requires Terminates(TopLevelEntries, server)
    ensures |sent| >= 1
    // the walk stops at the first halting page and at no earlier one
    ensures HaltsAt(TopLevelEntries, server, |sent| - 1)
    ensures forall j :: 0 <= j < |sent| - 1 ==> !HaltsAt(TopLevelEntries, server, j)
    // the j-th request asks for offset 50*j, 50 records, the fixed expansion
    ensures forall j :: 0 <= j < |sent| ==> sent[j] == Params(MaxResults * j, MaxResults, Expand)
    // so offsets strictly increase and none is asked for twice
    ensures forall i, j :: 0 <= i < j < |sent| ==> sent[i].startAt < sent[j].startAt
    // a falsy response raises and nothing is returned; otherwise every page's values, in order
    ensures ResponseAt(server, |sent| - 1).Falsy? ==>
      result == Raised(FailurePrefix + ResponseAt(server, |sent| - 1).repr)
    ensures ResponseAt(server, |sent| - 1).Truthy? ==>
      result == Returned(Collected(server, |sent|))
  {
    var projects: seq<Json> := [];
    var startAt := 0;
    sent := [];
    ghost var bound: nat :| HaltsAt(TopLevelEntries, server, bound);
    while true
      invariant startAt == MaxResults * |sent|
      invariant forall j :: 0 <= j < |sent| ==> sent[j] == RequestAt(j)
      invariant forall j :: 0 <= j < |sent| ==> !HaltsAt(TopLevelEntries, server, j)
      invariant |sent| <= bound
      invariant projects == Collected(server, |sent|)
      decreases bound - |sent|
    {
      var params := Params(startAt, MaxResults, Expand);
      var response := server(Target, SearchPath, params);
      sent := sent + [params];
      assert response == ResponseAt(server, |sent| - 1);
      if response.Falsy? {
        result := Raised(FailurePrefix + response.repr);
        return;
      }
      var data := response.data;
      projects := projects + (if data.values.Some? then data.values.value else []);
      if data.Len() < MaxResults {
        break;
      }
      startAt := startAt + MaxResults;
    }
    result := Returned(projects);
  }

  /** The same walk with the stop test on the number of records in `values`
      (a missing `values` counts as none, so it stops too). */
  method GetProjectsByRecordCount(server: Server) returns (result: Fetched<Json>, sent: seq<Params>)
    requires Terminates(RecordCount, server)
    ensures |sent| >= 1
    ensures HaltsAt(RecordCount, server, |sent| - 1)
    ensures forall j :: 0 <= j < |sent| - 1 ==> !HaltsAt(RecordCount, server, j)
    ensures forall j :: 0 <= j < |sent| ==> sent[j] == Params(MaxResults * j, MaxResults, Expand)
    ensures ResponseAt(server, |sent| - 1).Falsy? ==>
      result == Raised(FailurePrefix + ResponseAt(server, |sent| - 1).repr)
    ensures ResponseAt(server, |sent| - 1).Truthy? ==>
      result == Returned(Collected(server, |sent|))
  {
    var projects: seq<Json> := [];
    var startAt := 0;
    sent := [];
    ghost var bound: nat :| HaltsAt(RecordCount, server, bound);
    while true
      invariant startAt == MaxResults * |sent|
      invariant forall j :: 0 <= j < |sent| ==> sent[j] == RequestAt(j)
      invariant forall j :: 0 <= j < |sent| ==> !HaltsAt(RecordCount, server, j)
      invariant |sent| <= bound
      invariant projects == Collected(server, |sent|)
      decreases bound - |sent|
    {
      var params := Params(startAt, MaxResults, Expand);
      var response := server(Target, SearchPath, params);
      sent := sent + [params];
      assert response == ResponseAt(server, |sent| - 1);
      if response.Falsy? {
        result := Raised(FailurePrefix + response.repr);
        return;
      }
      var values := if response.data.values.Some? then response.data.values.value else [];
      projects := projects + values;
      if |values| < MaxResults {
        break;
      }
      startAt := startAt + MaxResults;
    }
    result := Returned(projects);
  }

  /** The stop test as written looks only at falsiness and at the size of the
      response object: two servers that agree on those at every offset halt
      at the same page, whatever records their `values` hold. */
  lemma AsWrittenIgnoresRecordCount(s1: Server, s2: Server, k: nat)
    requires forall p :: s1(Target, SearchPath, p).Falsy? == s2(Target, SearchPath, p).Falsy?
    requires forall p :: s1(Target, SearchPath, p).Truthy? && s2(Target, SearchPath, p).Truthy? ==>
      s1(Target, SearchPath, p).data.Len() == s2(Target, SearchPath, p).data.Len()
    ensures HaltsAt(TopLevelEntries, s1, k) == HaltsAt(TopLevelEntries, s2, k)
  {
    assert s1(Target, SearchPath, RequestAt(k)).Falsy? == s2(Target, SearchPath, RequestAt(k)).Falsy?;
  }

  // ---------------------------------------------------------------------
  // A server that pages through one fixed collection by offset.

  function Clamp(x: int, lo: int, hi: int): (r: int)
    requires lo <= hi
    ensures lo <= r <= hi
  {
    if x < lo then lo else if hi < x then hi else x
  }

  /** The records of `coll` from offset `start`, at most `count` of them. */
  function Window(coll: seq<Json>, start: int, count: int): (w: seq<Json>)
    ensures |w| <= |coll|
  {
    var lo := Clamp(start, 0, |coll|);
    coll[lo..Clamp(start + count, lo, |coll|)]
  }

  /** Answers every request with the window of `coll` it asks for, in an
      object with `otherKeys` entries besides `values`. */
  function CollectionServer(coll: seq<Json>, otherKeys: nat): Server {
    (target: string, path: string, p: Params) =>
      Truthy(Data(Some(Window(coll, p.startAt, p.maxResults)), otherKeys))
  }

  /** The records the k-th request gets from a collection server. */
  lemma PageOfCollection(coll: seq<Json>, otherKeys: nat, k: nat)
    ensures MaxResults * k + MaxResults <= |coll| ==>
      ValuesOf(ResponseAt(CollectionServer(coll, otherKeys), k)) == coll[MaxResults * k..MaxResults * k + MaxResults]
    ensures MaxResults * k <= |coll| < MaxResults * k + MaxResults ==>
      ValuesOf(ResponseAt(CollectionServer(coll, otherKeys), k)) == coll[MaxResults * k..]
  {
    assert ResponseAt(CollectionServer(coll, otherKeys), k) ==
      Truthy(Data(Some(Window(coll, MaxResults * k, MaxResults)), otherKeys));
  }

  /** Pages before the last full one: the first k pages of a collection
      server hold exactly the first 50*k records. */
  lemma {:induction false} CollectedIsPrefix(coll: seq<Json>, otherKeys: nat, k: nat)
    requires MaxResults * k <= |coll|
    ensures Collected(CollectionServer(coll, otherKeys), k) == coll[..MaxResults * k]
  {
    if k > 0 {
      CollectedIsPrefix(coll, otherKeys, k - 1);
      PageOfCollection(coll, otherKeys, k - 1);
      assert coll[..MaxResults * k] == coll[..MaxResults * (k - 1)] + coll[MaxResults * (k - 1)..MaxResults * k];
    }
  }

  /** The intended walk over a collection of K records returns exactly those
      records in order. It makes K/50 + 1 requests, the last one for a short
      (possibly empty) page; see PageCount for how that relates to ceil(K/50). */
  lemma RecordCountWalkReturnsCollection(coll: seq<Json>, otherKeys: nat)
    ensures forall j: nat :: j < |coll| / MaxResults ==>
      !HaltsAt(RecordCount, CollectionServer(coll, otherKeys), j)
    ensures HaltsAt(RecordCount, CollectionServer(coll, otherKeys), |coll| / MaxResults)
    ensures Collected(CollectionServer(coll, otherKeys), |coll| / MaxResults + 1) == coll
    // when K is a multiple of 50, the halting page is the empty page past the end
    ensures |coll| % MaxResults == 0 ==>
      ValuesOf(ResponseAt(CollectionServer(coll, otherKeys), |coll| / MaxResults)) == []
  {
    PageCount(|coll|);
    CollectionWalk(coll, otherKeys, |coll| / MaxResults);
    PageOfCollection(coll, otherKeys, |coll| / MaxResults);
  }

  /** The same, for the n with 50*n <= K < 50*n + 50. */
  lemma CollectionWalk(coll: seq<Json>, otherKeys: nat, n: nat)
    requires MaxResults * n <= |coll| < MaxResults * n + MaxResults
    ensures forall j: nat :: j < n ==> !HaltsAt(RecordCount, CollectionServer(coll, otherKeys), j)
    ensures HaltsAt(RecordCount, CollectionServer(coll, otherKeys), n)
    ensures Collected(CollectionServer(coll, otherKeys), n + 1) == coll
  {
    forall j: nat | j < n
      ensures !HaltsAt(RecordCount, CollectionServer(coll, otherKeys), j)
    {
      FullPageContinues(coll, otherKeys, j, n);
    }
    PageOfCollection(coll, otherKeys, n);
    CollectedIsPrefix(coll, otherKeys, n);
    LastPageCompletes(coll, otherKeys, n);
  }

  lemma FullPageContinues(coll: seq<Json>, otherKeys: nat, j: nat, n: nat)
    requires j < n && MaxResults * n <= |coll|
    ensures !HaltsAt(RecordCount, CollectionServer(coll, otherKeys), j)
  {
    EarlierPageEndsSooner(j, n);
    PageOfCollection(coll, otherKeys, j);
  }

  lemma LastPageCompletes(coll: seq<Json>, otherKeys: nat, n: nat)
    requires MaxResults * n <= |coll|
    requires Collected(CollectionServer(coll, otherKeys), n) == coll[..MaxResults * n]
    requires ValuesOf(ResponseAt(CollectionServer(coll, otherKeys), n)) == coll[MaxResults * n..]
    ensures Collected(CollectionServer(coll, otherKeys), n + 1) == coll
  {
    assert coll == coll[..MaxResults * n] + coll[MaxResults * n..];
  }

  lemma EarlierPageEndsSooner(j: nat, n: nat)
    requires j < n
    ensures MaxResults * j + MaxResults <= MaxResults * n
  {
  }

  /** K/50 full pages fit in K records, and the rest is shorter than a page;
      so K/50 + 1 requests is ceil(K/50) when K is not a multiple of 50, and
      one more than ceil(K/50) when it is, the full pages then filling K exactly. */
  lemma PageCount(k: nat)
    ensures MaxResults * (k / MaxResults) <= k < MaxResults * (k / MaxResults) + MaxResults
    ensures k % MaxResults != 0 ==> k / MaxResults + 1 == (k + MaxResults - 1) / MaxResults
    ensures k % MaxResults == 0 ==> k / MaxResults + 1 == (k + MaxResults - 1) / MaxResults + 1
    ensures k % MaxResults == 0 ==> MaxResults * (k / MaxResults) == k
  {
  }

  /** The walk as written, against Jira's project search (a response object
      with six entries besides `values`, so never 50 of them), stops after the
      first page. With more than 50 projects, it returns only the first 50. */
  lemma AsWrittenDropsRecords(coll: seq<Json>, otherKeys: nat)
    requires otherKeys < MaxResults - 1
    requires |coll| > MaxResults
    ensures HaltsAt(TopLevelEntries, CollectionServer(coll, otherKeys), 0)
    ensures Collected(CollectionServer(coll, otherKeys), 1) == coll[..MaxResults]
    ensures Collected(CollectionServer(coll, otherKeys), 1) != coll
  {
    var s := CollectionServer(coll, otherKeys);
    assert ValuesOf(ResponseAt(s, 0)) == coll[..MaxResults];
    assert |Collected(s, 1)| == MaxResults;
  }

  /** The walk as written never ends against objects with 49 or more entries
      besides `values`: however short the page, `len(data)` is at least 50. */
  lemma AsWrittenNeverEndsOnWideObjects(coll: seq<Json>, otherKeys: nat)
    requires otherKeys >= MaxResults - 1
    ensures !Terminates(TopLevelEntries, CollectionServer(coll, otherKeys))
  {
    forall k: nat
      ensures !HaltsAt(TopLevelEntries, CollectionServer(coll, otherKeys), k)
    {
      assert ResponseAt(CollectionServer(coll, otherKeys), k).data.otherKeys == otherKeys;
    }
  }

  /** The corrected walk, run against a collection server, returns the whole collection. */
  method FetchCollectionByRecordCount(coll: seq<Json>, otherKeys: nat) returns (result: Fetched<Json>, requests: nat)
    ensures result == Returned(coll)
    ensures requests == |coll| / MaxResults + 1
  {
    RecordCountWalkReturnsCollection(coll, otherKeys);
    var sent;
    result, sent := GetProjectsByRecordCount(CollectionServer(coll, otherKeys));
    requests := |sent|;
  }

  /** The walk as written, run against Jira's response shape (six entries
      besides `values`) over more than 50 projects, returns the first 50 only. */
  method FetchCollectionAsWritten(coll: seq<Json>) returns (result: Fetched<Json>, requests: nat)
    requires |coll| > MaxResults
    ensures result == Returned(coll[..MaxResults]) && result != Returned(coll)
    ensures requests == 1
  {
    AsWrittenDropsRecords(coll, 6);
    var sent;
    result, sent := GetProjects(CollectionServer(coll, 6));
    requests := |sent|;
  }
}
