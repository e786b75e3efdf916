/** The API client (`Api.call`): the request path it builds and its reaction to a reply,
    including the re-initialise-and-call-again step on an expired token. The HTTP exchange
    itself is not modelled: the replies the server would give are an input. */
module Api {
  import opened Common

  /** The request method; only its comparison with `'get'` matters. */
  datatype Verb = Get | Post

  /** `fullPath`: for a GET with data, the encoded query (`query`, given already encoded) is
      appended after `&` when the path already has a `?`, after `?` otherwise; any other
      request keeps the path as it is. */
  function FullPath(verb: Verb, path: string, query: Option<string>): (r: string)
    ensures StartsWith(r, path)
    ensures verb.Post? || query.None? ==> r == path
  {
    if verb.Get? && query.Some? then
      path + [if Contains(path, "?") then '&' else '?'] + query.value
    else
      path
  }

  /** A GET with data always ends up with a query part: the character after the path is
      `&` when the path already had a `?` and `?` otherwise, so the result contains `?`
      either way, followed by the whole encoded query. */
  lemma FullPathQuery(path: string, query: string)
    ensures var r := FullPath(Get, path, Some(query));
      && |r| == |path| + 1 + |query|
      && r[|path|] == (if Contains(path, "?") then '&' else '?')
      && r[|path| + 1..] == query
      && Contains(r, "?")
  {
    var sep := if Contains(path, "?") then '&' else '?';
    var r := path + [sep] + query;
    if Contains(path, "?") {
      assert r == path + ([sep] + query);
      ContainsExtend(path, [sep] + query, "?");
    } else {
      assert r[|path|..|path| + 1] == "?";
      ContainsAtIndex(r, "?", |path|);
    }
  }

  /** What one `fetch` gives back: a response (with the `error` field of its JSON body when
      it is not ok) or a network failure. */
  datatype Reply<T> = Answer(ok: bool, status: int, error: Option<string>, body: T) | NetworkError

  /** How a call ends: the body, `null`, a rejected promise, or still waiting for a reply. */
  datatype Outcome<T> = Returned(body: T) | Null | Thrown | Pending

  /** A reply that makes the client refresh its token and call again. */
  predicate IsExpired<T>(reply: Reply<T>)
  {
    reply.Answer? && !reply.ok && reply.status >= 400 && reply.error == Some("ExpiredToken")
  }

  /** `Api.call` given the replies to its successive attempts: an ok reply returns its body,
      an expired-token reply re-initialises and calls again (no bound on the number of
      attempts), any other failed reply yields `null`, and a network failure rejects. */
  function Call<T>(replies: seq<Reply<T>>): Outcome<T>
    decreases |replies|
  {
    if replies == [] then Pending
    else match replies[0]
      case NetworkError => Thrown
      case Answer(ok, status, error, body) =>
        if ok then Returned(body)
        else if status >= 400 && error == Some("ExpiredToken") then Call(replies[1..])
        else Null
  }

  /** Any number of expired-token replies in a row is retried through: the outcome is that
      of the first reply after them. */
  lemma {:induction false} CallSkipsExpired<T>(expired: seq<Reply<T>>, rest: seq<Reply<T>>)
    requires forall i :: 0 <= i < |expired| ==> IsExpired(expired[i])
    ensures Call(expired + rest) == Call(rest)
    decreases |expired|
  {
    if expired != [] {
      assert (expired + rest)[0] == expired[0] && IsExpired(expired[0]);
      assert (expired + rest)[1..] == expired[1..] + rest;
      assert Call(expired + rest) == Call((expired + rest)[1..]);
      CallSkipsExpired(expired[1..], rest);
    } else {
      assert expired + rest == rest;
    }
  }

  /** A call returns `null` exactly when, after the expired-token replies, the first
      reply is a failed response without that error. */
  lemma {:induction false} CallNull<T>(expired: seq<Reply<T>>, reply: Reply<T>, rest: seq<Reply<T>>)
    requires forall i :: 0 <= i < |expired| ==> IsExpired(expired[i])
    requires !IsExpired(reply)
    ensures Call(expired + [reply] + rest) == Null <==> reply.Answer? && !reply.ok
    ensures Call(expired + [reply] + rest).Returned? <==> reply.Answer? && reply.ok
  {
    assert expired + [reply] + rest == expired + ([reply] + rest);
    CallSkipsExpired(expired, [reply] + rest);
  }
}
