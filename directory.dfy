/** The directory lookup: resolving a list's display name to its identifier
    by scanning the records the directory service returns. */
module Directory {
  import opened Wrappers

  /** One record of the directory's JSON array: `{id, title}`. */
  datatype ListRecord = ListRecord(id: string, title: string)

  /** Record `i` is the first one, in directory order, whose title is exactly `name`. */
  ghost predicate IsFirstMatch(lists: seq<ListRecord>, name: string, i: int)
  {
    && 0 <= i < |lists|
    && lists[i].title == name
    && forall j :: 0 <= j < i ==> lists[j].title != name
  }

  /** The scan of `get_list`: the identifier of the first record whose title
      equals `name` (exact, case-sensitive comparison), or None. */
  function FindList(lists: seq<ListRecord>, name: string): (r: Option<string>)
    ensures r.None? <==> forall i :: 0 <= i < |lists| ==> lists[i].title != name
    ensures r.Some? ==> exists i :: IsFirstMatch(lists, name, i) && lists[i].id == r.value
  {
    if lists == [] then None
    else if lists[0].title == name then
      assert IsFirstMatch(lists, name, 0);
      Some(lists[0].id)
    else
      assert forall k :: IsFirstMatch(lists[1..], name, k) ==> IsFirstMatch(lists, name, k + 1);
      FindList(lists[1..], name)
  }

  /** The whole of `get_list`: `fetched` is what the directory request
      produced, either the parsed array or the failure of sending the request
      or of decoding its body. A failure is propagated unchanged. */
  function GetList(fetched: Result<seq<ListRecord>>, name: string): (r: Result<Option<string>>)
    ensures r.Failure? <==> fetched.Failure?
    ensures r.Failure? ==> r.error == fetched.error
    ensures r.Success? ==> r.value == FindList(fetched.value, name)
  {
    match fetched
    case Failure(e) => Failure(e)
    case Success(lists) => Success(FindList(lists, name))
  }

  /** A first match determines the scan's result: the identifier of that
      record. This follows from FindList's contract, since a first match is unique. */
  lemma FirstMatchFound(lists: seq<ListRecord>, name: string, i: int)
    requires IsFirstMatch(lists, name, i)
    ensures FindList(lists, name) == Some(lists[i].id)
  {
  }

  /** Records after a match are never consulted: scanning `front + back`
      gives the match in `front` if there is one, and otherwise the match in `back`. */
  lemma {:induction false} FindListAppend(front: seq<ListRecord>, back: seq<ListRecord>, name: string)
    ensures FindList(front + back, name)
         == if FindList(front, name).Some? then FindList(front, name) else FindList(back, name)
  {
    if front != [] {
      assert (front + back)[1..] == front[1..] + back;
      FindListAppend(front[1..], back, name);
    } else {
      assert front + back == back;
    }
  }

  /** Titles are compared exactly: no case folding and no trimming. */
  lemma ExactTitleOnly()
    ensures FindList([ListRecord("1", "Foo")], "Foo") == Some("1")
    ensures FindList([ListRecord("1", "Foo")], "foo") == None
    ensures FindList([ListRecord("1", "Foo")], "Foo ") == None
  {
  }
}
