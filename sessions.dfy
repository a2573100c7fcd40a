/** Successive requests served one after another by one relay process,
    each against the cache the previous ones left behind. */
module Sessions {
  import opened Wrappers
  import opened Directory
  import opened Relay

  /** One inbound request together with the outcomes of the outbound calls it may make. */
  datatype Call = Call(name: string, query: map<string, string>,
                       directory: Result<seq<ListRecord>>, upstream: Result<UpstreamResponse>)

  function Step(cache: map<string, string>, c: Call): Exchange
  {
    Handle(cache, c.name, c.query, c.directory, c.upstream)
  }

  /** The exchanges of `calls`, served in order starting from `cache`. */
  function Serve(cache: map<string, string>, calls: seq<Call>): (xs: seq<Exchange>)
    ensures |xs| == |calls|
    decreases |calls|
  {
    if calls == [] then []
    else
      var x := Step(cache, calls[0]);
      [x] + Serve(x.cache, calls[1..])
  }

  /** The cache after serving `calls` starting from `cache`. */
  function CacheAfter(cache: map<string, string>, calls: seq<Call>): map<string, string>
    decreases |calls|
  {
    if calls == [] then cache else CacheAfter(Step(cache, calls[0]).cache, calls[1..])
  }

  /** Over any run of requests the cache only grows: no entry is removed or
      rebound, and every new key is a name some request asked for. */
  lemma {:induction false} CacheOnlyGrows(cache: map<string, string>, calls: seq<Call>)
    ensures forall k :: k in cache ==> k in CacheAfter(cache, calls) && CacheAfter(cache, calls)[k] == cache[k]
    ensures forall k :: k in CacheAfter(cache, calls) && k !in cache ==>
              exists i :: 0 <= i < |calls| && calls[i].name == k
    decreases |calls|
  {
    if calls != [] {
      var next := Step(cache, calls[0]).cache;
      CacheOnlyGrows(next, calls[1..]);
      forall k | k in CacheAfter(cache, calls) && k !in cache
        ensures exists i :: 0 <= i < |calls| && calls[i].name == k
      {
        if k in next {
          assert calls[0].name == k;
        } else {
          var i :| 0 <= i < |calls[1..]| && calls[1..][i].name == k;
          assert calls[i + 1].name == k;
        }
      }
    }
  }

  /** Once a name is cached, no later request for it asks the directory, and
      each is forwarded to the cached identifier with its own query unchanged. */
  lemma {:induction false} CachedNameNeverQueried(cache: map<string, string>, calls: seq<Call>, name: string)
    requires name in cache
    ensures forall i :: 0 <= i < |calls| && calls[i].name == name ==>
              && !Serve(cache, calls)[i].directoryQueried
              && Serve(cache, calls)[i].forwarded == Some(Request(ListUrl(cache[name]), calls[i].query))
    decreases |calls|
  {
    if calls != [] {
      var x := Step(cache, calls[0]);
      CachedNameNeverQueried(x.cache, calls[1..], name);
      forall i | 0 <= i < |calls| && calls[i].name == name
        ensures !Serve(cache, calls)[i].directoryQueried
        ensures Serve(cache, calls)[i].forwarded == Some(Request(ListUrl(cache[name]), calls[i].query))
      {
        if i > 0 {
          assert Serve(cache, calls)[i] == Serve(x.cache, calls[1..])[i - 1];
          assert calls[1..][i - 1] == calls[i];
        }
      }
    }
  }

  /** Serving `calls` is serving its first `n` requests and then the rest
      against the cache they left behind. */
  lemma {:induction false} ServeSplit(cache: map<string, string>, calls: seq<Call>, n: nat)
    requires n <= |calls|
    ensures Serve(cache, calls)[n..] == Serve(CacheAfter(cache, calls[..n]), calls[n..])
    decreases n
  {
    if n > 0 {
      var x := Step(cache, calls[0]);
      ServeSplit(x.cache, calls[1..], n - 1);
      assert calls[..n][0] == calls[0];
      assert calls[..n][1..] == calls[1..][..n - 1];
      assert calls[1..][n - 1..] == calls[n..];
    }
  }

  /** After a request for `name` was forwarded, every later request for
      `name` skips the directory and is forwarded to the same identifier. */
  lemma ResolvedNameIsStable(cache: map<string, string>, calls: seq<Call>, i: nat, j: nat)
    requires i < j < |calls|
    requires calls[i].name == calls[j].name
    requires Serve(cache, calls)[i].forwarded.Some?
    ensures !Serve(cache, calls)[j].directoryQueried
    ensures Serve(cache, calls)[j].forwarded.Some?
    ensures Serve(cache, calls)[j].forwarded.value.url == Serve(cache, calls)[i].forwarded.value.url
  {
    var xs := Serve(cache, calls);
    var name := calls[i].name;
    ServeSplit(cache, calls, i);
    var before := CacheAfter(cache, calls[..i]);
    assert xs[i] == xs[i..][0] == Step(before, calls[i]);
    var after := Step(before, calls[i]).cache;
    ServeSplit(cache, calls, i + 1);
    assert calls[..i + 1] == calls[..i] + [calls[i]];
    CacheAfterAppend(cache, calls[..i], calls[i]);
    CachedNameNeverQueried(after, calls[i + 1..], name);
    assert xs[j] == xs[i + 1..][j - (i + 1)];
    assert calls[i + 1..][j - (i + 1)] == calls[j];
  }

  /** Serving one more request extends the run by one step. */
  lemma {:induction false} CacheAfterAppend(cache: map<string, string>, calls: seq<Call>, c: Call)
    ensures CacheAfter(cache, calls + [c]) == Step(CacheAfter(cache, calls), c).cache
    decreases |calls|
  {
    if calls == [] {
      assert [c][1..] == [];
    } else {
      assert (calls + [c])[1..] == calls[1..] + [c];
      CacheAfterAppend(Step(cache, calls[0]).cache, calls[1..], c);
    }
  }

  /** A fresh relay serves `GET /lists/news?limit=3` from a directory holding
      list 42 titled "news", relays the timeline body verbatim with status
      200, and serves any later request for "news" without the directory. */
  lemma NewsScenario(second: Call)
    requires second.name == "news"
    ensures
      var first := Call("news", map["limit" := "3"], Success([ListRecord("42", "news")]),
                        Success(UpstreamResponse(200, Success("{\"items\":[]}"))));
      var xs := Serve(map[], [first, second]);
      && xs[0].directoryQueried
      && xs[0].forwarded == Some(Request(ListUrl("42"), map["limit" := "3"]))
      && xs[0].reply == Relayed(Response(StatusOk, JsonContentType, "{\"items\":[]}"))
      && !xs[1].directoryQueried
      && xs[1].forwarded == Some(Request(ListUrl("42"), second.query))
  {
    var first := Call("news", map["limit" := "3"], Success([ListRecord("42", "news")]),
                      Success(UpstreamResponse(200, Success("{\"items\":[]}"))));
    var x := Step(map[], first);
    assert x.cache == map["news" := "42"];
    assert Serve(map[], [first, second])[1] == Step(x.cache, second);
  }
}
