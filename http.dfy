/**
 * The contract between the endpoint groups and the transport: the request
 * handler every group receives (`RequestHandler` in the profile, proxy and tag
 * modules), what a call settles to, and the list-or-wrapper normalisation that
 * every listing endpoint repeats.
 */
module Http {
  import opened Wrappers

  /** The two HTTP methods the handler accepts. */
  datatype Method = GET | POST

  /** What an endpoint hands to the request handler: a path starting with '/',
      a method and an optional JSON body. */
  datatype Request<B> = Request(endpoint: string, httpMethod: Method, body: Option<B>)

  /** The errors a call can reject with. `Error` is JavaScript's plain `Error`
      (network and HTTP failures), `WhoLoginAPIError` the typed error raised for
      a `success: false` envelope, and `TypeError` the engine's error for reading
      a property of `undefined` (its message is engine-defined). */
  datatype Failure = Error(message: string) | WhoLoginAPIError(message: string) | TypeError

  /** How a call settles: resolved with a value or with `undefined`, or rejected. */
  datatype Outcome<T> = Resolved(data: Option<T>) | Rejected(failure: Failure)

  /** A listing response: a bare array, or a wrapper object whose list field
      (`profiles`, `proxies` or `tags`) may be missing. */
  datatype ListResponse<T> = BareArray(items: seq<T>) | Wrapper(list: Option<seq<T>>)

  /** `Array.isArray(resp) ? resp : resp?.<list> ?? []`: a missing response or a
      missing list field yields the empty sequence. */
  function NormaliseList<T>(resp: Option<ListResponse<T>>): (r: seq<T>)
    ensures resp.Some? && resp.value.BareArray? ==> r == resp.value.items
    ensures resp.Some? && resp.value.Wrapper? && resp.value.list.Some? ==> r == resp.value.list.value
    ensures resp.None? || (resp.value.Wrapper? && resp.value.list.None?) ==> r == []
  {
    match resp
    case None => []
    case Some(BareArray(items)) => items
    case Some(Wrapper(list)) => list.GetOr([])
  }

  /** A listing endpoint after `await`: a rejection propagates, and a resolved
      response of any shape becomes a sequence. */
  function ListResult<T>(o: Outcome<ListResponse<T>>): (r: Outcome<seq<T>>)
    ensures o.Rejected? <==> r.Rejected?
    ensures o.Rejected? ==> r.failure == o.failure
    ensures o.Resolved? ==> r == Resolved(Some(NormaliseList(o.data)))
  {
    match o
    case Rejected(f) => Rejected(f)
    case Resolved(resp) => Resolved(Some(NormaliseList(resp)))
  }

  /** The service may answer a listing either way: a bare array and a wrapper
      holding the same list normalise to the same sequence, and normalising a
      normalised list changes nothing. */
  lemma WrapperAgreesWithBareArray<T>(xs: seq<T>, resp: Option<ListResponse<T>>)
    ensures NormaliseList(Some(Wrapper(Some(xs)))) == NormaliseList(Some(BareArray(xs))) == xs
    ensures NormaliseList(Some(BareArray(NormaliseList(resp)))) == NormaliseList(resp)
  {
  }

  // ---------------------------------------------------------------- paths

  /** The endpoint path built from its segments: `Path(["profile", id, "open"])`
      is `"/profile/" + id + "/open"`, the string the endpoint's template
      literal produces. */
  function Path(segments: seq<string>): (r: string)
    ensures r == "" <==> segments == []
    ensures r != "" ==> r[0] == '/'
    ensures |r| >= |segments|
  {
    if segments == [] then "" else "/" + segments[0] + Path(segments[1..])
  }

  /** The characters of `s` cut at every '/'. */
  function Split(s: string): (r: seq<string>)
    ensures |r| >= 1
    decreases |s|
  {
    if s == [] then [""]
    else if s[0] == '/' then [""] + Split(s[1..])
    else
      var rest := Split(s[1..]);
      [[s[0]] + rest[0]] + rest[1..]
  }

  /** The segments of a path that starts with '/'; any other string has none. */
  function Segments(p: string): seq<string>
  {
    if |p| > 0 && p[0] == '/' then Split(p[1..]) else []
  }

  /** An id that is interpolated into a path as a single segment: the
      endpoints do not encode ids, so an id holding a '/' changes the route. */
  predicate PlainId(id: string)
  {
    '/' !in id
  }

  ghost predicate SlashFree(segments: seq<string>)
  {
    forall i :: 0 <= i < |segments| ==> '/' !in segments[i]
  }

  lemma {:induction false} SplitNoSlash(a: string)
    requires '/' !in a
    ensures Split(a) == [a]
    decreases |a|
  {
    if a != [] {
      assert '/' !in a[1..];
      SplitNoSlash(a[1..]);
      assert [a[0]] + a[1..] == a;
    }
  }

  lemma {:induction false} SplitAtSlash(a: string, b: string)
    requires '/' !in a
    ensures Split(a + "/" + b) == [a] + Split(b)
    decreases |a|
  {
    if a == [] {
      assert a + "/" + b == "/" + b;
      assert ("/" + b)[1..] == b;
    } else {
      var s := a + "/" + b;
      assert s[0] == a[0] && a[0] != '/';
      assert s[1..] == a[1..] + "/" + b;
      assert '/' !in a[1..];
      SplitAtSlash(a[1..], b);
      assert [a[0]] + a[1..] == a;
    }
  }

  /** Cutting a path at its slashes gives back the segments it was built from,
      provided no segment holds a '/' itself. */
  lemma {:induction false} SegmentsOfPath(segments: seq<string>)
    requires SlashFree(segments)
    ensures Segments(Path(segments)) == segments
    decreases |segments|
  {
    if segments != [] {
      var head, rest := segments[0], segments[1..];
      assert '/' !in head;
      assert Path(segments)[1..] == head + Path(rest);
      if rest == [] {
        assert head + Path(rest) == head;
        SplitNoSlash(head);
      } else {
        assert SlashFree(rest) by {
          forall i | 0 <= i < |rest| ensures '/' !in rest[i] {
            assert rest[i] == segments[i + 1];
          }
        }
        var tail := rest[0] + Path(rest[1..]);
        assert Path(rest) == "/" + tail;
        assert head + Path(rest) == head + "/" + tail;
        SplitAtSlash(head, tail);
        SegmentsOfPath(rest);
        assert Path(rest)[1..] == tail;
      }
    }
  }

  /** The segments of a request's endpoint are the ones its path was built from. */
  lemma SegmentsOfEndpoint<B>(r: Request<B>, segments: seq<string>)
    requires r.endpoint == Path(segments) && SlashFree(segments)
    ensures Segments(r.endpoint) == segments
  {
    SegmentsOfPath(segments);
  }
}
