/** The request handler of the relay (`GET /lists/{name}`): resolve the list
    name through the cache or the directory, then forward the request to the
    list's timeline and relay the body. The two outbound HTTP calls are not
    performed here: their outcomes are parameters. */
module Relay {
  import opened Wrappers
  import opened Directory

  const StatusOk: nat := 200
  const StatusNotFound: nat := 404
  const StatusInternalServerError: nat := 500

  /** The content type of every relayed body. */
  const JsonContentType: string := "application/json"

  /** The timeline endpoint; the list identifier is appended to it. */
  const TimelineBase: string := "https://moth.social/api/v1/timelines/list/"

  /** An outbound request to the timeline endpoint: its URL and query parameters. */
  datatype Request = Request(url: string, query: map<string, string>)

  /** What the timeline endpoint answered: its status code (which the relay
      never looks at) and the outcome of reading its body as text. */
  datatype UpstreamResponse = UpstreamResponse(status: nat, body: Result<string>)

  /** The successful response the relay builds. */
  datatype Response = Response(status: nat, contentType: string, body: string)

  /** The handler's return value, `Result<Response, (StatusCode, String)>`:
      a relayed response, or a status code with an error text. */
  datatype Reply = Relayed(response: Response) | Rejected(status: nat, message: string)

  /** The status code the caller sees. */
  function StatusOf(reply: Reply): nat
  {
    match reply
    case Relayed(response) => response.status
    case Rejected(status, _) => status
  }

  /** Everything one request does: the reply, the cache afterwards, whether
      the directory was asked, and the timeline request sent, if any. */
  datatype Exchange = Exchange(reply: Reply, cache: map<string, string>,
                               directoryQueried: bool, forwarded: Option<Request>)

  /** The timeline URL of list `id`. */
  function ListUrl(id: string): string
  {
    TimelineBase + id
  }

  /** Distinct lists are forwarded to distinct URLs. */
  lemma ListUrlInjective(a: string, b: string)
    ensures ListUrl(a) == ListUrl(b) <==> a == b
  {
    if ListUrl(a) == ListUrl(b) {
      assert a == ListUrl(a)[|TimelineBase|..];
      assert b == ListUrl(b)[|TimelineBase|..];
    }
  }

  /** The forwarding step's outcome-to-reply mapping: a transport or
      body-read failure becomes 500 with its description; a body that was
      read becomes 200, JSON, the body verbatim, whatever the upstream status. */
  function Forward(upstream: Result<UpstreamResponse>): (r: Reply)
    ensures r.Relayed? <==> upstream.Success? && upstream.value.body.Success?
    ensures r.Relayed? ==> r.response == Response(StatusOk, JsonContentType, upstream.value.body.value)
    ensures r.Rejected? ==> r.status == StatusInternalServerError
    ensures upstream.Failure? ==> r.message == upstream.error
    ensures upstream.Success? && upstream.value.body.Failure? ==> r.message == upstream.value.body.error
  {
    match upstream
    case Failure(e) => Rejected(StatusInternalServerError, e)
    case Success(resp) =>
      match resp.body
      case Failure(e) => Rejected(StatusInternalServerError, e)
      case Success(text) => Relayed(Response(StatusOk, JsonContentType, text))
  }

  /** The upstream status code never influences the reply. */
  lemma StatusCollapse(s1: nat, s2: nat, body: Result<string>)
    ensures Forward(Success(UpstreamResponse(s1, body))) == Forward(Success(UpstreamResponse(s2, body)))
    ensures body.Success? ==> StatusOf(Forward(Success(UpstreamResponse(s1, body)))) == StatusOk
  {
  }

  /** One request against cache `cache`, given the outcome of the directory
      request (consulted only on a miss) and of the timeline request. */
  function Handle(cache: map<string, string>, name: string, query: map<string, string>,
                  directory: Result<seq<ListRecord>>, upstream: Result<UpstreamResponse>): (x: Exchange)
    // the directory is asked exactly when the name is not cached
    ensures x.directoryQueried <==> name !in cache
    // hit: the cached identifier is used and the cache is left alone
    ensures name in cache ==> x.cache == cache && x.forwarded == Some(Request(ListUrl(cache[name]), query))
    // miss with a match: exactly `name -> id` is added and `id` is forwarded to
    ensures name !in cache && directory.Success? && FindList(directory.value, name).Some? ==>
              var id := FindList(directory.value, name).value;
              x.cache == cache[name := id] && x.forwarded == Some(Request(ListUrl(id), query))
    // miss without a match: 404 with an empty body
    ensures name !in cache && directory.Success? && FindList(directory.value, name).None? ==>
              x.reply == Rejected(StatusNotFound, "") && x.cache == cache && x.forwarded == None
    // directory failure: 404 with its description
    ensures name !in cache && directory.Failure? ==>
              x.reply == Rejected(StatusNotFound, directory.error) && x.cache == cache && x.forwarded == None
    // the cache only grows: no key is removed or changed, only `name` can be added
    ensures forall k :: k in cache ==> k in x.cache && x.cache[k] == cache[k]
    ensures x.cache.Keys <= cache.Keys + {name}
    // a forwarded request carries the query unchanged and the id now cached for `name`
    ensures x.forwarded.Some? ==>
              && name in x.cache
              && x.forwarded.value == Request(ListUrl(x.cache[name]), query)
              && x.reply == Forward(upstream)
    ensures StatusOf(x.reply) in {StatusOk, StatusNotFound, StatusInternalServerError}
  {
    if name in cache then
      Exchange(Forward(upstream), cache, false, Some(Request(ListUrl(cache[name]), query)))
    else
      match GetList(directory, name)
      case Success(Some(id)) =>
        Exchange(Forward(upstream), cache[name := id], true, Some(Request(ListUrl(id), query)))
      case Success(None) =>
        Exchange(Rejected(StatusNotFound, ""), cache, true, None)
      case Failure(e) =>
        Exchange(Rejected(StatusNotFound, e), cache, true, None)
  }

  /** The shared application state: the resolution cache from list title to
      list identifier. */
  class AppState {
    var lists: map<string, string>

    /** The state the server starts with: an empty cache. */
    constructor ()
      ensures lists == map[]
    {
      lists := map[];
    }

    /** `smart_list`: serve one request for list `name` with query `query`. */
    method SmartList(name: string, query: map<string, string>,
                     directory: Result<seq<ListRecord>>, upstream: Result<UpstreamResponse>)
      returns (reply: Reply, directoryQueried: bool, forwarded: Option<Request>)
      modifies this
      ensures Exchange(reply, lists, directoryQueried, forwarded)
           == Handle(old(lists), name, query, directory, upstream)
      ensures forall k :: k in old(lists) ==> k in lists && lists[k] == old(lists)[k]
      ensures name in old(lists) ==> lists == old(lists) && !directoryQueried
    {
      var snapshot := lists;
      directoryQueried := false;
      forwarded := None;
      var listId: string;
      if name in snapshot {
        listId := snapshot[name];
      } else {
        directoryQueried := true;
        var found := GetList(directory, name);
        match found
        case Success(Some(id)) =>
          lists := lists[name := id];
          listId := id;
        case Success(None) =>
          reply := Rejected(StatusNotFound, "");
          return;
        case Failure(e) =>
          reply := Rejected(StatusNotFound, e);
          return;
      }
      var request := Request(ListUrl(listId), query);
      forwarded := Some(request);
      match upstream
      case Failure(e) =>
        reply := Rejected(StatusInternalServerError, e);
        return;
      case Success(response) =>
        match response.body
        case Failure(e) =>
          reply := Rejected(StatusInternalServerError, e);
          return;
        case Success(text) =>
          reply := Relayed(Response(StatusOk, JsonContentType, text));
    }
  }
}
