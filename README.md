# jira-db client core in Dafny

This project models three pieces of a small Jira REST client:

- **The HTTP client** (`modules/api_client.py`). The constructor stores the retry count, the back-off factor and the pool size. `_create_session` builds the retry keywords, mounts one adapter for `https://` and `http://`, and returns the session. The four verbs (GET, POST, PUT, DELETE) send one request each. Every verb turns the result into the triple `(body, status, "successful" | "failed")`.
- **The issue search walk** (`modules/get_issues.py`). It pages by continuation token. The first request carries no token, and every later request carries the token of the page before it. The walk stops at the first page without a usable token. It raises on a falsy response.
- **The project search walk** (`modules/get_projects.py`). It pages by offset, moving 50 records forward each round. It stops when the decoded response object has fewer than 50 top-level entries. It raises on a falsy response.

Files:

- `wrappers.dfy` holds `Option` and `Fetched`, the end of a walk: the records it returns, or the exception it raises.
- `json.dfy` holds decoded JSON values.
- `api_client.dfy` holds the client.
- `issues.dfy` and `projects.dfy` hold the two walks.

Parameters stand in for what this code cannot see:

- **The server.** Each walk takes the client as a function from the arguments of one `get_request(target, path, params=...)` call to the response. That response is either falsy or the decoded page.
- **The network.** Each verb takes the library's exchange as a function from the session and the keyword arguments of the library call to what came back. What comes back is either a `RequestException` or a status, a text and the decoded text.
- **The library version.** The release of `requests` is a constructor argument.

Each walk also returns `sent`, the parameters of every request in order, so its contract can say what was asked.

A walk returns only against a server that eventually sends a page that ends it (`Terminates`). The code has no bound of its own and loops forever against any other server.

Two places where the model keeps what the code does, not what a reader might expect:

- **Offset stop rule.** The code compares `len(data)`, the number of top-level entries of the whole response object, with 50. The model keeps that rule as `StopRule.TopLevelEntries`. A rule on the record count would compare the length of `values` with 50 instead. It is modelled separately as `StopRule.RecordCount`, the corrected walk; see Findings.
- **Transport errors.** The code maps a transport error to status 500, "failed", the same triple as a real 500 response whose body is `{"error": msg}`. `RequestExceptionLooksLikeServerError` states that the two cannot be told apart. A separate tag for transport errors would let a caller tell them apart; the code has none.

## Model

| member | source | states |
|---|---|---|
| `Issues.GetIssues` | modules/get_issues.py:15-39 | The walk stops at the first page whose token is absent or empty, and at no earlier page. The first request has no `nextPageToken`. Request j+1 carries the non-empty token of response j. Every request has `maxResults` 500 and the fixed `fields` and `jql`. A falsy response gives `Raised("Failed to fetch issues: " + repr)` and no list. Otherwise the result is every page's `issues`, the last page's included, in page order. |
| `Issues.RequestsShaped` | modules/get_issues.py:16-35 | In any walk that went on past every page but the last, the first request has no token. Every later request carries exactly the truthy token of the page before it. All requests carry the fixed fields. |
| `Issues.HaltingIgnoresIssues` | modules/get_issues.py:34-37 | Two servers that agree on falsiness and tokens are sent the same requests and halt at the same page, whatever issues they return. A full page without a token stops the walk, and a short page with a token continues it. |
| `Issues.EndlessTokensNeverEnd` | modules/get_issues.py:19-39 | Against a server that always answers truthily with a non-empty token, repeated or not, no page ends the walk. |
| `Issues.CollectedGrowsByAppending` | modules/get_issues.py:34 | The accumulator is append-only. What was gathered after m pages stays, in order, at the front of what is gathered after any later page. |
| `Projects.GetProjects` | modules/get_projects.py:11-33 | The walk stops at the first page whose response object has fewer than 50 top-level entries (`Projects.Data.Len`: `values` plus the other keys), and at no earlier page. Request j asks for `startAt` 50*j, `maxResults` 50 and the fixed `expand`, so offsets strictly increase. A falsy response raises and returns nothing. Otherwise the result is every page's `values`, the stopping page's included, in page order. |
| `Projects.AsWrittenIgnoresRecordCount` | modules/get_projects.py:29-30 | The stop rule as written depends only on falsiness and on the size of the response object, never on the records in `values`. |
| `Projects.AsWrittenDropsRecords` | modules/get_projects.py:26-30 | Take a collection of more than 50 records, served in objects with fewer than 49 other entries (Jira's has 6). The walk halts on the first page and collects only the first 50 records, which is not the collection. |
| `Projects.AsWrittenNeverEndsOnWideObjects` | modules/get_projects.py:14-32 | Against objects with 49 or more entries besides `values`, the walk as written never ends, however short the pages are. |
| `Projects.FetchCollectionAsWritten` | modules/get_projects.py:11-33 | Running the walk as written against Jira's response shape over more than 50 projects makes one request and returns exactly the first 50. |
| `Projects.GetProjectsByRecordCount` | modules/get_projects.py:26-30 | The same walk and the same contract, with the stop test on the number of records in `values`. |
| `Projects.CollectedIsPrefix` | modules/get_projects.py:27 | Against a server that pages through one collection, the first k pages hold exactly its first 50*k records. |
| `Projects.RecordCountWalkReturnsCollection` | modules/get_projects.py:26-32 | Over a collection of K records, the corrected walk goes on for K/50 pages and halts on the next, whatever else the response objects hold. It returns exactly the collection in order. When K is a multiple of 50, the halting page is empty. |
| `Projects.PageCount` | modules/get_projects.py:29-32 | K/50 full pages fit in K records and the rest is shorter than a page. So the K/50 + 1 requests of the corrected walk are ceil(K/50) when K is not a multiple of 50, and ceil(K/50) + 1 when it is, the full pages then filling K exactly. |
| `Projects.FetchCollectionByRecordCount` | modules/get_projects.py:11-33 | Running the corrected walk over a collection returns exactly that collection, with K/50 + 1 requests. |
| `ApiClient.BuildRetryParams` | modules/api_client.py:42-56 | The retry keywords have `total` = max_retries and `backoff_factor` = backoff_factor. The forced statuses are [429, 500, 502, 503, 504]. The methods [GET, POST, PUT, DELETE] are under `allowed_methods` from `requests` release 2.26.0 on, and under `method_whitelist` before it. |
| `ApiClient.ExactlyOneMethodsKeyword` | modules/api_client.py:46-56 | Exactly one of `allowed_methods` and `method_whitelist` is passed, chosen by the release, and its value is exactly GET, POST, PUT, DELETE. The forced-status set is exactly {429, 500, 502, 503, 504}. |
| `ApiClient.HTTPAdapter.constructor` | modules/api_client.py:59 | The adapter carries the retry policy and the pool ceiling it was given. |
| `ApiClient.Session.constructor` | modules/api_client.py:60 | A new session has nothing mounted and is open. |
| `ApiClient.Session.Mount` | modules/api_client.py:61-62 | Mounting maps the prefix to the adapter and leaves the other prefixes alone. |
| `ApiClient.Session.Close` | modules/api_client.py:160-164 | Closing marks the session closed and keeps its mounts. |
| `ApiClient.APIClient.constructor` | modules/api_client.py:19-31 | The client stores the three settings. Its new session has one adapter for both `https://` and `http://` and nothing else. That adapter has pool ceiling `concurrency` and the retry policy for the settings and the `requests` release. |
| `ApiClient.APIClient.CreateSession` | modules/api_client.py:34-63 | The session is new and configured as above, and its single adapter is new. |
| `ApiClient.DefaultClient` | modules/api_client.py:19 | With no arguments the client has 5 retries, back-off factor 1 and pool ceiling 10, and its session is configured with them. |
| `ApiClient.APIClient.GetRequest` | modules/api_client.py:65-85 | The result is the classification of the exchange for a GET that carries the url, the headers and the query params, and no body. |
| `ApiClient.APIClient.PostRequest` | modules/api_client.py:87-111 | When `files` is truthy (present and non-empty), the result is the classification of the exchange for a POST that carries the url, the headers and the multipart `files`, and no JSON body. Otherwise it is the classification of the exchange for a POST that carries `json=data` and no files. No query params are sent. |
| `ApiClient.APIClient.PutRequest` | modules/api_client.py:113-137 | The same as POST, for a PUT: multipart `files` alone when they are truthy, `json=data` alone otherwise. |
| `ApiClient.APIClient.DeleteRequest` | modules/api_client.py:139-158 | The result is the classification of the exchange for a DELETE that carries only the url and the headers. |
| `ApiClient.APIClient.Close` | modules/api_client.py:160-164 | Closing the client closes its session. |
| `ApiClient.ClassifyAnswered` | modules/api_client.py:80-83 | `ApiClient.Classify` on an answered exchange: a response keeps its status. It is "successful" exactly for 200, 201 and 204, all of them 2xx statuses (section 15.3 of RFC 9110). An empty text gives the body `{}` whatever the status, and any other text gives its decoded value. |
| `ApiClient.RequestExceptionLooksLikeServerError` | modules/api_client.py:84-85 | A request exception does not escape: it becomes `({"error": message}, 500, "failed")`. That is the same triple as a real 500 response with that body. |
| `ApiClient.ForcedStatusesAreFailures` | modules/api_client.py:49 | No status that forces a retry is ever reported as "successful". |

## Left out

- The `Lock` taken around each session call (modules/api_client.py:78, 101, 127, 151) is left out: it concerns concurrency, which is not modelled.
- Retry and back-off are not modelled as they run. They happen inside the HTTP library. Only the keywords passed to it are modelled, and the network parameter returns the final exchange.
- JSON decoding is not modelled: a response's decoded value is given with its text. A decode failure is not modelled either. Whether it is caught as a `RequestException` depends on the library release.
- The release of `requests` stands in for the release of urllib3, whose `Retry` owns the methods keyword (modules/api_client.py:45, 53). When the installed urllib3 does not accept the keyword the test picks, `Retry(**retry_params)` raises `TypeError` (modules/api_client.py:58); the model does not capture that.
- Version parsing is not modelled. A release is a triple (major, minor, micro) compared in order, and pre-release and local version tags are not modelled.
- `requests.Session()` mounts default adapters for both schemes, which the two mounts then replace. The model's session starts with nothing mounted, and ends in the same state.
- `Issues.GetIssues` requires `Terminates(server)`. Against a server that always sends a token, the code loops forever and has no result to model (`Issues.EndlessTokensNeverEnd`). The same holds for `Projects.GetProjects` (`Projects.AsWrittenNeverEndsOnWideObjects`) and `Projects.GetProjectsByRecordCount`.
- A page whose decoded body is not a JSON object (a list, a string) makes `data.get(...)` raise `AttributeError` (modules/get_issues.py:34, modules/get_projects.py:27). The model's `Data` is always an object and cannot represent such a page.
- The walks model an `issues` or `values` entry that is a list. Other JSON values there (`null`, a string) make `extend` raise or extend by characters; these are not modelled. A `nextPageToken` is modelled as a string or absent.
- What makes a client response falsy depends on the client class, and its printed form is a given string.
- The walks take the client as a server function. Neither client class of the repository serves the walks' `get_request(target, path, params=...)` call as the walks expect. `modules/api_client.py`'s `get_request(url, headers, params=None)` accepts the call, taking "Jira" as the url and the path as the headers, but returns a tuple, which has no `.json()`. `utils/api_client.py`'s `get_request` returns `None` (utils/api_client.py:52-65), so the walks would always raise.
- utils/api_client.py, utils/logger.py, modules/logger.py, modules/__init__.py and main.py are not part of this model. They read environment variables, write logs and files, and wire the pieces together.
- Fan-out pagination, per-call pacing and failing fast after `close` do not appear in the code, so they are not modelled.

## Findings

| source | as written | input that shows it | evidently intended | confidence | as-written member | corrected member |
|---|---|---|---|---|---|---|
| modules/get_projects.py:29 | `len(data) < max_results` counts the top-level entries of the response object, not the records in `values` | 51 projects, each page an object with `values` and 6 other entries (Jira's project search shape): the walk stops after the first page and returns 50 projects | stop when a page holds fewer than 50 records | high; not executed | `Projects.AsWrittenDropsRecords` | `Projects.RecordCountWalkReturnsCollection` |
| modules/get_projects.py:29 | the same test never fires while the response object has 50 or more top-level entries | any collection served in objects with 49 entries besides `values`: every page, even an empty one, has `len(data)` 50, and the walk requests pages forever | stop on the first short page, whatever the object's size | medium; not executed | `Projects.AsWrittenNeverEndsOnWideObjects` | `Projects.RecordCountWalkReturnsCollection` |
