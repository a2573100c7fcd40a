# mastodon-list-relay, modelled in Dafny

The relay serves `GET /lists/{name}`. It turns a list's display name into the
list's identifier and forwards the request, with its query parameters, to
that list's timeline on the Mastodon instance. It then relays the body it
gets back. Resolving a name takes one request to the directory endpoint
(`/api/v1/lists`), which returns every list as `{id, title}`. The result is
kept in a cache from title to identifier that lives as long as the process.

The model has four modules:

- `Wrappers` (wrappers.dfy): `Option` and `Result`. An error is carried as
  its description, the text the Rust code gets from `to_string()`.
- `Directory` (directory.dfy): the `List` record (`ListRecord`) and
  `get_list`. The scan is the recursive function `FindList`, specified
  against `IsFirstMatch`: the first record, in directory order, whose title
  equals the name exactly. `GetList` propagates a failed directory request,
  as the two `?` operators do.
- `Relay` (relay.dfy): the handler `smart_list`. The class `AppState` holds
  the cache `lists: map<string, string>`. Its method `SmartList` follows the
  source's early returns step by step. It is proved equal to the pure
  function `Handle`, whose contract gives the outcome of every branch:
  - a cache hit uses the cached identifier;
  - a miss with a match inserts `name -> id` and forwards;
  - a miss without a match is 404 with an empty body;
  - a failed directory request is 404 with its description;
  - a failed send is 500, and so is a failed body read;
  - a body that was read is 200, `application/json`, the body verbatim.
- `Sessions` (sessions.dfy): requests served one after another against the
  cache the earlier ones left. It proves that the cache only grows, that a
  cached name never reaches the directory again, and that a resolved name
  keeps its identifier.

The two outbound HTTP calls are parameters, not I/O:

- The directory call is a `Result<seq<ListRecord>>`: either the decoded
  array, or the failure of sending the request or of decoding its body.
- The timeline call is a `Result<UpstreamResponse>`: either the failure of
  sending, or the upstream status together with the outcome of reading the
  body as text.

Each request's `Exchange` records whether the directory was asked and which
timeline request (URL and query) was sent. That is how "the directory is not
consulted" and "the query is passed through unchanged" are stated.

Two behaviours are modelled as written:

- A failed directory request gets 404, the same status as an unknown name.
- The upstream status code is ignored: a body that was read is always
  relayed with 200 (`Relay.StatusCollapse`).

## Model

| member | source | states |
|---|---|---|
| `Directory.FindList` | src/main.rs:104-109 | None exactly when no record's title equals the name; Some(id) only for the id of the first record whose title equals it |
| `Directory.FirstMatchFound` | src/main.rs:104-107 | whenever record i is the first exact match, the scan returns record i's id (the converse of FindList's contract, a corollary of it) |
| `Directory.FindListAppend` | src/main.rs:104-107 | the first match wins: scanning front + back gives front's match if there is one, otherwise back's, so later records with the same title are ignored |
| `Directory.ExactTitleOnly` | src/main.rs:105 | comparison is exact: "Foo" finds the list titled "Foo"; "foo" and "Foo " find nothing |
| `Directory.GetList` | src/main.rs:96-110 | a failed directory request or a body that does not decode propagates its error; otherwise the result is the first-match scan of the decoded records |
| `Relay.ListUrlInjective` | src/main.rs:66 | two identifiers give the same timeline URL exactly when they are equal |
| `Relay.Forward` | src/main.rs:66-87 | a send failure or body-read failure gives 500 with its description; a body that was read gives 200, application/json, the body verbatim |
| `Relay.StatusCollapse` | src/main.rs:82-87 | the upstream status code never changes the reply; a readable body always gives status 200 |
| `Relay.Handle` | src/main.rs:37-88 | the directory is asked exactly on a miss; hit: cached id forwarded, cache unchanged; miss with match: cache plus exactly name -> id, that id forwarded; no match: 404 with empty body, cache unchanged; directory failure: 404 with its description, cache unchanged; no key is removed or rebound; a forwarded request has the query unchanged and the URL of the id cached for the name; every status is 200, 404 or 500 |
| `Relay.AppState.constructor` | src/main.rs:25-28 | the server starts with an empty cache |
| `Relay.AppState.SmartList` | src/main.rs:37-88 | the step-by-step handler yields the reply, new cache, directory use and forwarded request that Handle specifies; old entries are kept; a hit leaves the cache unchanged without asking the directory |
| `Sessions.CacheOnlyGrows` | src/main.rs:48-56 | over any run of requests no cache entry is removed or rebound, and every new key is a name that some request asked for |
| `Sessions.CachedNameNeverQueried` | src/main.rs:48-50 | once a name is cached, every later request for it skips the directory and forwards to the cached id with its own query |
| `Sessions.ResolvedNameIsStable` | src/main.rs:48-57 | after a request for a name has been forwarded, every later request for that name skips the directory and is forwarded to the same URL |
| `Sessions.NewsScenario` | src/main.rs:37-88 | from an empty cache with list 42 titled "news", `GET /lists/news?limit=3` asks the directory, forwards to list 42 with limit=3 and relays the body with 200; a second request for "news" is forwarded to list 42 without asking the directory |

## Left out

- Server bootstrap, route registration and socket binding in `main` (src/main.rs:23-35). The model's entry point is the handler. Only the empty initial cache is kept, as `AppState`'s constructor.
- The HTTP calls themselves and their `.await` points. Their outcomes are inputs. The model therefore cannot tie the timeline response to the URL that was requested. It records that URL in the `Exchange` instead.
- JSON decoding of the directory response into records. A decoded `seq<ListRecord>` or a failure is an input.
- The `Authorization` header and the `RELAY_TOKEN` environment variable (src/main.rs:70, 99): environment access. Consequently, the `unwrap()` panic when the variable is missing is not modelled.
- Concurrency: the `Mutex`, the clone of the whole state and the race between two first lookups of one name. Requests are served one at a time, so the snapshot the handler reads always equals the live cache. Because of that, the insert never overwrites an entry in the model. In the source a racing insert can overwrite one, and the last writer wins.
- The `println!` diagnostic on a directory failure (src/main.rs:61), and the `client` field of `AppState` (src/main.rs:20), an opaque library handle.
- Parsing the inbound query string into a map, and encoding the outbound query string. The query is a `map<string, string>` on both sides.
- The content type of error replies, which the web framework chooses. Only the status code and the message are modelled.
