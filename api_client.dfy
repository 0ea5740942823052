/**
 * The transport (`BaseAPIClient`): a base URL normalised once at construction,
 * the bearer-token request it sends, and the classification of what `fetch`
 * returns into a value, an absent value or one of three errors.
 */
module ApiClient {
  import opened Wrappers
  import opened Http

  // ------------------------------------------------------------ base URL

  predicate EndsWithSlash(s: string)
  {
    |s| > 0 && s[|s| - 1] == '/'
  }

  /** `apiUrl.endsWith('/') ? apiUrl.slice(0, -1) : apiUrl`: at most one
      trailing '/' is removed and nothing else changes. */
  function StripTrailingSlash(url: string): (r: string)
    ensures r <= url
    ensures |url| - |r| == if EndsWithSlash(url) then 1 else 0
  {
    if EndsWithSlash(url) then url[..|url| - 1] else url
  }

  /** The base URL may be configured with or without its trailing slash: both
      spellings give the client the same base. */
  lemma SlashSpellingsAgree(base: string)
    requires !EndsWithSlash(base)
    ensures StripTrailingSlash(base + "/") == StripTrailingSlash(base) == base
  {
    assert (base + "/")[..|base|] == base;
  }

  /** Only one slash is removed: a doubled trailing slash keeps one. */
  lemma OnlyOneSlashStripped(base: string)
    ensures StripTrailingSlash(base + "//") == base + "/"
  {
    assert (base + "//")[..|base| + 1] == base + "/";
  }

  // ------------------------------------------------------- authorization

  /** A character of an RFC 6750 `b64token`, apart from the trailing '='. */
  predicate IsTokenChar(c: char)
  {
    ('A' <= c <= 'Z') || ('a' <= c <= 'z') || ('0' <= c <= '9')
    || c == '-' || c == '.' || c == '_' || c == '~' || c == '+' || c == '/'
  }

  /** `b64token = 1*( ALPHA / DIGIT / "-" / "." / "_" / "~" / "+" / "/" ) *"="`
      (section 2.1 of RFC 6750). */
  predicate IsB64Token(s: string)
  {
    && |s| >= 1
    && s[0] != '='
    && (forall i :: 0 <= i < |s| ==> IsTokenChar(s[i]) || s[i] == '=')
    && (forall i, j :: 0 <= i < j < |s| && s[i] == '=' ==> s[j] == '=')
  }

  /** The `Authorization` header value the client sends: `Bearer <key>`. */
  function AuthorizationValue(apiKey: string): string
  {
    "Bearer " + apiKey
  }

  function SkipSpaces(s: string): string
  {
    if |s| > 0 && s[0] == ' ' then SkipSpaces(s[1..]) else s
  }

  /** A server's reading of an `Authorization` header under section 2.1 of
      RFC 6750: `credentials = "Bearer" 1*SP b64token`. */
  function BearerToken(header: string): (r: Option<string>)
    ensures r.Some? ==> IsB64Token(r.value)
  {
    if |header| >= 7 && header[..7] == "Bearer " then
      var token := SkipSpaces(header[6..]);
      if IsB64Token(token) then Some(token) else None
    else None
  }

  /** The header the client builds carries exactly its key as the bearer
      token, for every key that is a well-formed `b64token`, and for no other. */
  lemma BearerRoundTrip(apiKey: string)
    ensures BearerToken(AuthorizationValue(apiKey)) == Some(apiKey) <==> IsB64Token(apiKey)
  {
    var h := AuthorizationValue(apiKey);
    assert h[..7] == "Bearer ";
    assert h[6..] == " " + apiKey;
    if IsB64Token(apiKey) {
      assert apiKey[0] != ' ';
      assert SkipSpaces(" " + apiKey) == SkipSpaces(apiKey);
    }
  }

  // ------------------------------------------------------- content type

  /** `t` occurs in `s` starting at index `i`. */
  ghost predicate OccursAt(s: string, t: string, i: int)
  {
    0 <= i && i + |t| <= |s| && s[i..i + |t|] == t
  }

  /** JavaScript's `s.includes(t)`: `t` occurs in `s` as a contiguous run. */
  function Includes(s: string, t: string): (r: bool)
    ensures r <==> exists i :: OccursAt(s, t, i)
    decreases |s|
  {
    if |t| > |s| then false
    else if s[..|t|] == t then assert OccursAt(s, t, 0); true
    else
      var r := Includes(s[1..], t);
      assert r ==> exists i :: OccursAt(s, t, i) by {
        if r {
          var k :| OccursAt(s[1..], t, k);
          assert s[k + 1..k + 1 + |t|] == s[1..][k..k + |t|];
          assert OccursAt(s, t, k + 1);
        }
      }
      assert (exists i :: OccursAt(s, t, i)) ==> r by {
        if exists i :: OccursAt(s, t, i) {
          var k :| OccursAt(s, t, k);
          assert k != 0;
          assert s[1..][k - 1..k - 1 + |t|] == s[k..k + |t|];
          assert OccursAt(s[1..], t, k - 1);
        }
      }
      r
  }

  /** `response.headers.get('content-type')?.includes('application/json')`:
      a missing header is not JSON; the match is case-sensitive. */
  predicate IsJson(contentType: Option<string>)
  {
    contentType.Some? && Includes(contentType.value, "application/json")
  }

  // ------------------------------------------------------- status text

  function DigitChar(d: nat): (c: char)
    requires d < 10
    ensures '0' <= c <= '9'
  {
    ('0' as int + d) as char
  }

  predicate IsDigits(s: string)
  {
    forall i :: 0 <= i < |s| ==> '0' <= s[i] <= '9'
  }

  /** The decimal numeral that a template literal prints for an integer. */
  function NatToString(n: nat): (s: string)
    ensures |s| >= 1 && IsDigits(s)
  {
    if n < 10 then [DigitChar(n)] else NatToString(n / 10) + [DigitChar(n % 10)]
  }

  /** The value of a decimal numeral. */
  function ParseDecimal(s: string): nat
    requires IsDigits(s)
  {
    if s == [] then 0
    else ParseDecimal(s[..|s| - 1]) * 10 + (s[|s| - 1] as int - '0' as int)
  }

  lemma {:induction false} DecimalRoundTrip(n: nat)
    ensures ParseDecimal(NatToString(n)) == n
  {
    var s := NatToString(n);
    if n >= 10 {
      assert s[..|s| - 1] == NatToString(n / 10);
      DecimalRoundTrip(n / 10);
    }
  }

  // -------------------------------------------------- classifying a reply

  /** The parsed JSON body of a reply: `{success: true, data?}` or
      `{success: false, errorMessage}`. */
  datatype Envelope<T> = ApiSuccess(data: Option<T>) | ApiFailure(errorMessage: string)

  /** What `fetch` yields: a network failure (with the cause's message), or a
      response with its `content-type` header (if any), `ok`, `status`,
      `statusText` and the envelope that `response.json()` would parse, which
      is read only when the content type is JSON. */
  datatype FetchOutcome<T> =
    | NetworkFailure(cause: string)
    | Response(contentType: Option<string>, ok: bool, status: nat, statusText: string, json: Envelope<T>)

  const NetworkFailurePrefix := "Network request failed: "
  const HttpErrorPrefix := "HTTP Error: "

  function HttpErrorMessage(status: nat, statusText: string): string
  {
    HttpErrorPrefix + NatToString(status) + " " + statusText
  }

  /** The body of `_request` after `fetch`: exactly one of a value, an absent
      value, an HTTP error, an API error or a network error. */
  function Classify<T>(o: FetchOutcome<T>): (r: Outcome<T>)
    ensures r.Rejected? ==> !r.failure.TypeError?
    ensures r.Resolved? <==> o.Response? && (if IsJson(o.contentType) then o.json.ApiSuccess? else o.ok)
    ensures r.Rejected? && r.failure.Error? <==> o.NetworkFailure? || (!IsJson(o.contentType) && !o.ok)
    ensures r.Rejected? && r.failure.WhoLoginAPIError? <==> o.Response? && IsJson(o.contentType) && o.json.ApiFailure?
  {
    match o
    case NetworkFailure(cause) => Rejected(Error(NetworkFailurePrefix + cause))
    case Response(contentType, ok, status, statusText, json) =>
      if !IsJson(contentType) then
        if ok then Resolved(None) else Rejected(Error(HttpErrorMessage(status, statusText)))
      else
        match json
        case ApiSuccess(data) => Resolved(data)
        case ApiFailure(message) => Rejected(WhoLoginAPIError(message))
  }

  /** An API error carries exactly the server's message, and nothing else
      raises one. */
  lemma ApiErrorExactly<T>(o: FetchOutcome<T>, message: string)
    ensures Classify(o) == Rejected(WhoLoginAPIError(message))
        <==> o.Response? && IsJson(o.contentType) && o.json == ApiFailure(message)
  {
  }

  /** A call resolves with a value exactly when a JSON reply carries it. */
  lemma ValueExactly<T>(o: FetchOutcome<T>, v: T)
    ensures Classify(o) == Resolved(Some(v))
        <==> o.Response? && IsJson(o.contentType) && o.json == ApiSuccess(Some(v))
  {
  }

  /** A call resolves with nothing exactly for an `ok` non-JSON reply or a
      successful envelope without `data`. */
  lemma AbsentExactly<T>(o: FetchOutcome<T>)
    ensures Classify(o) == Resolved(None)
        <==> o.Response? && (if IsJson(o.contentType) then o.json == ApiSuccess(None) else o.ok)
  {
  }

  /** The index of the first space in `s`. */
  function FirstSpace(s: string): nat
    requires ' ' in s
  {
    if s[0] == ' ' then 0 else 1 + FirstSpace(s[1..])
  }

  lemma {:induction false} FirstSpaceAfter(a: string, x: string)
    requires ' ' !in a
    ensures ' ' in a + " " + x && FirstSpace(a + " " + x) == |a|
  {
    var s := a + " " + x;
    assert s[|a|] == ' ';
    if a != [] {
      assert s[0] == a[0];
      assert s[1..] == a[1..] + " " + x;
      assert ' ' !in a[1..];
      FirstSpaceAfter(a[1..], x);
    }
  }

  lemma SplitAtSpace(a: string, x: string, b: string, y: string)
    requires ' ' !in a && ' ' !in b
    requires a + " " + x == b + " " + y
    ensures a == b && x == y
  {
    var s := a + " " + x;
    FirstSpaceAfter(a, x);
    FirstSpaceAfter(b, y);
    assert a == s[..|a|] == (b + " " + y)[..|b|] == b;
    assert x == s[|a| + 1..] == (b + " " + y)[|b| + 1..] == y;
  }

  /** No HTTP error message reads like a network failure. */
  lemma MessagesDiffer(status: nat, statusText: string, cause: string)
    ensures HttpErrorMessage(status, statusText) != NetworkFailurePrefix + cause
  {
    assert HttpErrorMessage(status, statusText)[0] == 'H';
    assert (NetworkFailurePrefix + cause)[0] == 'N';
  }

  lemma {:induction false} PrefixCancels(p: string, x: string, y: string)
    requires p + x == p + y
    ensures x == y
  {
    assert x == (p + x)[|p|..];
    assert y == (p + y)[|p|..];
  }

  /** The message of an HTTP error tells its status and status text, and
      only a non-JSON reply that is not `ok` produces one. */
  lemma HttpErrorExactly<T>(o: FetchOutcome<T>, status: nat, statusText: string)
    ensures Classify(o) == Rejected(Error(HttpErrorMessage(status, statusText)))
        <==> o.Response? && !IsJson(o.contentType) && !o.ok && o.status == status && o.statusText == statusText
  {
    if Classify(o) == Rejected(Error(HttpErrorMessage(status, statusText))) {
      if o.NetworkFailure? {
        MessagesDiffer(status, statusText, o.cause);
      } else {
        var d1, d2 := NatToString(o.status), NatToString(status);
        assert HttpErrorMessage(o.status, o.statusText) == HttpErrorPrefix + (d1 + " " + o.statusText);
        assert HttpErrorMessage(status, statusText) == HttpErrorPrefix + (d2 + " " + statusText);
        PrefixCancels(HttpErrorPrefix, d1 + " " + o.statusText, d2 + " " + statusText);
        SplitAtSpace(d1, o.statusText, d2, statusText);
        DecimalRoundTrip(o.status);
        DecimalRoundTrip(status);
      }
    }
  }

  /** A network failure is reported with its cause, and no reply of the
      server is reported that way. */
  lemma NetworkErrorExactly<T>(o: FetchOutcome<T>, cause: string)
    ensures Classify(o) == Rejected(Error(NetworkFailurePrefix + cause)) <==> o == NetworkFailure(cause)
  {
    if Classify(o) == Rejected(Error(NetworkFailurePrefix + cause)) {
      if o.NetworkFailure? {
        PrefixCancels(NetworkFailurePrefix, o.cause, cause);
      } else {
        MessagesDiffer(o.status, o.statusText, cause);
      }
    }
  }

  // ------------------------------------------------------------ the client

  /** The request `fetch` is given: absolute URL, method, headers and body. */
  datatype HttpRequest<B> = HttpRequest(url: string, httpMethod: Method, headers: seq<(string, string)>, body: Option<B>)

  /** The base client: the normalised base URL and the key, both fixed at
      construction. */
  class BaseApiClient {
    const apiUrl: string
    const apiKey: string

    constructor (apiUrl: string, apiKey: string)
      ensures this.apiUrl == StripTrailingSlash(apiUrl) && this.apiKey == apiKey
    {
      this.apiUrl := if EndsWithSlash(apiUrl) then apiUrl[..|apiUrl| - 1] else apiUrl;
      this.apiKey := apiKey;
    }

    /** The request `_request` hands to `fetch`: the base URL followed by the
        endpoint, the bearer token and the JSON content type, and the body only
        when one is given. */
    function Prepare<B>(endpoint: string, httpMethod: Method, body: Option<B>): (r: HttpRequest<B>)
      ensures r.url == apiUrl + endpoint
      ensures r.httpMethod == httpMethod && r.body == body
      ensures |r.headers| == 2
      ensures r.headers[0] == ("Authorization", "Bearer " + apiKey)
      ensures IsB64Token(apiKey) ==> BearerToken(r.headers[0].1) == Some(apiKey)
      ensures r.headers[1] == ("Content-Type", "application/json")
    {
      BearerRoundTrip(apiKey);
      HttpRequest(apiUrl + endpoint, httpMethod,
                  [("Authorization", AuthorizationValue(apiKey)), ("Content-Type", "application/json")],
                  body)
    }

    /** `_request(endpoint, method, body)`, with `fetch` (and the JSON parse
        of its reply) given as a parameter. */
    function Send<B, T>(endpoint: string, httpMethod: Method, body: Option<B>,
                        fetch: HttpRequest<B> -> FetchOutcome<T>): (r: Outcome<T>)
      ensures var o := fetch(Prepare(endpoint, httpMethod, body));
        && (r.Rejected? ==> !r.failure.TypeError?)
        && (o.NetworkFailure? ==> r == Rejected(Error(NetworkFailurePrefix + o.cause)))
        && (r.Rejected? && r.failure.WhoLoginAPIError? <==> o.Response? && IsJson(o.contentType) && o.json.ApiFailure?)
        && (r.Resolved? && r.data.Some? ==> o.Response? && IsJson(o.contentType) && o.json == ApiSuccess(r.data))
    {
      Classify(fetch(Prepare(endpoint, httpMethod, body)))
    }
  }
}
