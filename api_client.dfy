/**
 * The request path of `NetatmoApiClient`: every request asks the authentication
 * manager for headers, sends one HTTP request, and when the server answers with a
 * 403 that looks like a stale session, invalidates the credential and tries once
 * more. Every other failure is surfaced at once as an `ApiError`.
 *
 * The authentication manager and the HTTP session are collaborators whose code is
 * not part of this model; they appear as small classes that record every call made
 * to them, the way the client's tests observe them through mocks.
 */
module ApiClient {
  import opened Wrappers
  import opened Errors
  import Validators

  /** A JSON value as it appears at the top level of a request or response object. */
  datatype Scalar = Str(s: string) | Num(x: real) | Null

  /** A decoded JSON object. */
  type JsonObject = map<string, Scalar>

  datatype Verb = GET | POST

  /** Headers returned by `get_auth_headers()`; `credential` identifies the session credential they carry. */
  datatype Headers = Headers(credential: nat)

  /** One HTTP request as the server sees it. */
  datatype Request = Request(verb: Verb, path: string, headers: Headers, json: Option<JsonObject>)

  /**
   * A response body: a flat JSON object, some other text (possibly empty; a body
   * that is not a flat object is carried here too), or a body whose text cannot
   * be read at all.
   */
  datatype Body = Document(doc: JsonObject) | Text(text: string) | Unreadable

  /** What one request produces: a response, or a transport failure before any response. */
  datatype Reply =
    | Response(status: int, body: Body)
    | ConnectionFailure
    | TimeoutFailure

  /** One call of the client's public interface (`get` or `post`). */
  datatype ApiCall = ApiCall(verb: Verb, path: string, json: Option<JsonObject>)

  /** A call made to the authentication manager. */
  datatype AuthEvent = HeadersIssued(headers: Headers) | Invalidated

  /** The client never sends more than this many requests for one call. */
  const MaxAttempts: nat := 2

  /** Statuses for which `raise_for_status()` raises `HTTPError`. */
  predicate IsHttpError(status: int) {
    400 <= status < 600
  }

  /**
   * `_is_authentication_error`: a 403 whose body is not blank is taken for a stale
   * session. A body that cannot be read counts as not blank, so it is retried too.
   */
  predicate IsAuthenticationError(status: int, body: Body) {
    status == 403 && !(body.Text? && Validators.IsBlank(body.text))
  }

  /** A reply after which the client invalidates the credential and tries again. */
  predicate RetryEligible(reply: Reply) {
    reply.Response? && IsHttpError(reply.status) && IsAuthenticationError(reply.status, reply.body)
  }

  /** What the client returns or raises for a reply it does not retry. */
  function Settle(reply: Reply): (r: Result<JsonObject, ApiFailure>)
    ensures r.Ok? <==> reply.Response? && !IsHttpError(reply.status) && reply.body.Document?
    ensures r.Ok? ==> r.value == reply.body.doc
    ensures reply.Response? && IsHttpError(reply.status) ==> r == Err(HttpStatus(reply.status))
    ensures reply.TimeoutFailure? <==> r == Err(RequestTimeout)
    ensures reply.ConnectionFailure? ==> r == Err(NetworkError)
    ensures reply.Response? && !IsHttpError(reply.status) && !reply.body.Document? ==> r == Err(NetworkError)
  {
    match reply
    case ConnectionFailure => Err(NetworkError)
    case TimeoutFailure => Err(RequestTimeout)
    case Response(status, body) =>
      if IsHttpError(status) then Err(HttpStatus(status))
      else if body.Document? then Ok(body.doc)
      else Err(NetworkError)
  }

  /**
   * The reply a scripted server gives to its k-th request. Once the script is used
   * up nothing answers, which the client sees as a connection failure.
   */
  function ReplyAt(script: seq<Reply>, k: nat): Reply {
    if k < |script| then script[k] else ConnectionFailure
  }

  /** Number of requests one call sends, given the reply to its first request. */
  function AttemptCount(first: Reply): (n: nat)
    ensures 1 <= n <= MaxAttempts
    ensures n == MaxAttempts <==> RetryEligible(first)
  {
    if RetryEligible(first) then MaxAttempts else 1
  }

  /** What one call returns or raises, given the replies to its first and (possible) second request. */
  function CallOutcome(first: Reply, second: Reply): Result<JsonObject, ApiFailure> {
    if RetryEligible(first) then Settle(second) else Settle(first)
  }

  /** The requests sent by `n` attempts: attempt k carries the k-th credential after `g`. */
  function SentRequests(verb: Verb, path: string, json: Option<JsonObject>, g: nat, n: nat): (reqs: seq<Request>)
    ensures |reqs| == n
    ensures forall k :: 0 <= k < n ==> reqs[k] == Request(verb, path, Headers(g + k), json)
  {
    seq(n, k requires 0 <= k < n => Request(verb, path, Headers(g + k), json))
  }

  /**
   * The calls `n` attempts make on the authentication manager, starting from
   * credential `g`: headers are fetched at the start of every attempt and the
   * credential is invalidated between two attempts.
   */
  function AuthTrace(g: nat, n: nat): seq<AuthEvent>
    decreases n
  {
    if n == 0 then []
    else if n == 1 then [HeadersIssued(Headers(g))]
    else AuthTrace(g, n - 1) + [Invalidated, HeadersIssued(Headers(g + n - 1))]
  }

  /** How many times `invalidate()` appears in a trace (`invalidate.call_count`). */
  function Invalidations(t: seq<AuthEvent>): nat {
    if t == [] then 0 else (if t[0].Invalidated? then 1 else 0) + Invalidations(t[1..])
  }

  /** The headers handed out, in order (one per `get_auth_headers()` call). */
  function IssuedHeaders(t: seq<AuthEvent>): seq<Headers> {
    if t == [] then []
    else (if t[0].HeadersIssued? then [t[0].headers] else []) + IssuedHeaders(t[1..])
  }

  lemma {:induction false} InvalidationsAppend(a: seq<AuthEvent>, b: seq<AuthEvent>)
    ensures Invalidations(a + b) == Invalidations(a) + Invalidations(b)
  {
    if a == [] {
      assert a + b == b;
    } else {
      assert (a + b)[0] == a[0] && (a + b)[1..] == a[1..] + b;
      InvalidationsAppend(a[1..], b);
    }
  }

  lemma {:induction false} IssuedHeadersAppend(a: seq<AuthEvent>, b: seq<AuthEvent>)
    ensures IssuedHeaders(a + b) == IssuedHeaders(a) + IssuedHeaders(b)
  {
    if a == [] {
      assert a + b == b;
    } else {
      assert (a + b)[0] == a[0] && (a + b)[1..] == a[1..] + b;
      IssuedHeadersAppend(a[1..], b);
    }
  }

  /**
   * `n` attempts call `get_auth_headers()` exactly `n` times and `invalidate()`
   * exactly `n - 1` times, and the k-th headers handed out are those of credential g + k.
   */
  lemma {:induction false} AuthTraceCounts(g: nat, n: nat)
    requires n >= 1
    ensures Invalidations(AuthTrace(g, n)) == n - 1
    ensures |IssuedHeaders(AuthTrace(g, n))| == n
    ensures forall k :: 0 <= k < n ==> IssuedHeaders(AuthTrace(g, n))[k] == Headers(g + k)
  {
    if n > 1 {
      AuthTraceCounts(g, n - 1);
      var tail := [Invalidated, HeadersIssued(Headers(g + n - 1))];
      InvalidationsAppend(AuthTrace(g, n - 1), tail);
      IssuedHeadersAppend(AuthTrace(g, n - 1), tail);
      assert tail[1..] == [HeadersIssued(Headers(g + n - 1))] && tail[1..][1..] == [];
      assert IssuedHeaders(tail[1..]) == [Headers(g + n - 1)];
      assert IssuedHeaders(tail) == [Headers(g + n - 1)];
      assert Invalidations(tail[1..]) == 0;
      assert Invalidations(tail) == 1;
    } else {
      assert IssuedHeaders(AuthTrace(g, n)) == [Headers(g)];
    }
  }

  /**
   * Every attempt sends the headers that `get_auth_headers()` returned for it:
   * the k-th request carries the k-th headers handed out.
   */
  lemma AttemptsUseIssuedHeaders(verb: Verb, path: string, json: Option<JsonObject>, g: nat, n: nat)
    requires n >= 1
    ensures |SentRequests(verb, path, json, g, n)| == |IssuedHeaders(AuthTrace(g, n))|
    ensures forall k :: 0 <= k < n ==>
      SentRequests(verb, path, json, g, n)[k].headers == IssuedHeaders(AuthTrace(g, n))[k]
  {
    AuthTraceCounts(g, n);
  }

  /**
   * `_is_authentication_error`, stated without `strip()`: a failure is retried iff
   * it is a 403 whose body is unreadable, a JSON document, or text holding at least
   * one non-whitespace character. No other status is ever retried.
   */
  lemma RetryEligibleIff(reply: Reply)
    ensures RetryEligible(reply) <==>
      && reply.Response?
      && reply.status == 403
      && (reply.body.Text? ==> exists i :: 0 <= i < |reply.body.text| && !Validators.IsSpace(reply.body.text[i]))
  {
  }

  /**
   * One call's effect on the authentication manager: `get_auth_headers()` is called
   * once per request sent, and `invalidate()` exactly once when the first reply was
   * retried, never otherwise.
   */
  lemma {:induction false} CallAuthEffects(first: Reply, g: nat)
    ensures |IssuedHeaders(AuthTrace(g, AttemptCount(first)))| == AttemptCount(first)
    ensures Invalidations(AuthTrace(g, AttemptCount(first))) == if RetryEligible(first) then 1 else 0
  {
    AuthTraceCounts(g, AttemptCount(first));
  }

  /** A stale-session 403 followed by a success: the success payload is returned after two requests and one invalidation. */
  lemma RetryThenSuccess(first: Reply, status: int, doc: JsonObject, g: nat)
    requires RetryEligible(first)
    requires !IsHttpError(status)
    ensures CallOutcome(first, Response(status, Document(doc))) == Ok(doc)
    ensures AttemptCount(first) == 2
    ensures Invalidations(AuthTrace(g, AttemptCount(first))) == 1
    ensures |IssuedHeaders(AuthTrace(g, AttemptCount(first)))| == 2
  {
    CallAuthEffects(first, g);
  }

  /** A second stale-session 403 is not retried: ApiError with status code 403 after two requests and one invalidation. */
  lemma RetryExhausted(first: Reply, second: Reply, g: nat)
    requires RetryEligible(first) && RetryEligible(second)
    ensures CallOutcome(first, second) == Err(HttpStatus(403))
    ensures StatusCode(CallOutcome(first, second).error) == Some(403)
    ensures AttemptCount(first) == 2
    ensures Invalidations(AuthTrace(g, AttemptCount(first))) == 1
  {
    CallAuthEffects(first, g);
  }

  /** A 403 with a blank body is a server error: raised at once, one request, no invalidation. */
  lemma BlankForbiddenNotRetried(text: string, second: Reply, g: nat)
    requires Validators.AllSpace(text)
    ensures CallOutcome(Response(403, Text(text)), second) == Err(HttpStatus(403))
    ensures AttemptCount(Response(403, Text(text))) == 1
    ensures Invalidations(AuthTrace(g, AttemptCount(Response(403, Text(text))))) == 0
    ensures |IssuedHeaders(AuthTrace(g, AttemptCount(Response(403, Text(text)))))| == 1
  {
    CallAuthEffects(Response(403, Text(text)), g);
  }

  /** Any other HTTP error status is raised at once with that status code: one request, no invalidation. */
  lemma OtherHttpErrorNotRetried(status: int, body: Body, second: Reply, g: nat)
    requires IsHttpError(status) && status != 403
    ensures CallOutcome(Response(status, body), second) == Err(HttpStatus(status))
    ensures StatusCode(CallOutcome(Response(status, body), second).error) == Some(status)
    ensures AttemptCount(Response(status, body)) == 1
    ensures Invalidations(AuthTrace(g, AttemptCount(Response(status, body)))) == 0
  {
    CallAuthEffects(Response(status, body), g);
  }

  /**
   * Connection failures and timeouts surface as ApiError without a further attempt,
   * whether they happen on the first request or on the retry.
   */
  lemma TransportFailureSurfaces(first: Reply, second: Reply)
    requires first.ConnectionFailure? || first.TimeoutFailure? || (RetryEligible(first) && (second.ConnectionFailure? || second.TimeoutFailure?))
    ensures CallOutcome(first, second).Err?
    ensures CallOutcome(first, second) == Err(RequestTimeout) <==> (if RetryEligible(first) then second else first).TimeoutFailure?
    ensures first.ConnectionFailure? || first.TimeoutFailure? ==> AttemptCount(first) == 1
    ensures first.ConnectionFailure? || (RetryEligible(first) && second.ConnectionFailure?)
            ==> CallOutcome(first, second) == Err(NetworkError)
  {
  }

  /** A successful status whose body is empty, not JSON, or unreadable raises ApiError. */
  lemma UnparsableSuccessFails(status: int, body: Body, second: Reply)
    requires !IsHttpError(status) && !body.Document?
    ensures CallOutcome(Response(status, body), second) == Err(NetworkError)
  {
  }

  /** The authentication manager: hands out headers for the current credential and can drop it. */
  class AuthManager {
    /** Which credential is held: every invalidation forces a new one. */
    var generation: nat
    /** Every call made on this manager, in order. */
    ghost var events: seq<AuthEvent>

    constructor ()
      ensures generation == 0 && events == []
    {
      generation := 0;
      events := [];
    }

    /** `get_auth_headers()` */
    method GetAuthHeaders() returns (h: Headers)
      modifies this`events
      ensures h == Headers(generation)
      ensures events == old(events) + [HeadersIssued(h)]
    {
      h := Headers(generation);
      events := events + [HeadersIssued(h)];
    }

    /** `invalidate()`: the next headers carry a new credential. */
    method Invalidate()
      modifies this
      ensures generation == old(generation) + 1
      ensures events == old(events) + [Invalidated]
    {
      generation := generation + 1;
      events := events + [Invalidated];
    }
  }

  /** The HTTP session together with the server it talks to, which answers from a script. */
  class Session {
    /** The server's replies, in the order the requests arrive. */
    const script: seq<Reply>
    /** Every request sent so far (`responses.calls`). */
    var sent: seq<Request>

    constructor (script: seq<Reply>)
      ensures this.script == script && sent == []
    {
      this.script := script;
      sent := [];
    }

    method Send(req: Request) returns (reply: Reply)
      modifies this
      ensures reply == ReplyAt(script, |old(sent)|)
      ensures sent == old(sent) + [req]
    {
      reply := ReplyAt(script, |sent|);
      sent := sent + [req];
    }
  }

  class NetatmoApiClient {
    const auth: AuthManager
    const session: Session
    /** Every `get`/`post` made on this client, in order. */
    ghost var calls: seq<ApiCall>

    constructor (auth: AuthManager, session: Session)
      ensures this.auth == auth && this.session == session && calls == []
    {
      this.auth := auth;
      this.session := session;
      calls := [];
    }

    /** What the next `get` or `post` on this client returns or raises. */
    ghost function NextOutcome(): Result<JsonObject, ApiFailure>
      reads this, session
    {
      CallOutcome(ReplyAt(session.script, |session.sent|), ReplyAt(session.script, |session.sent| + 1))
    }

    /**
     * The effect of one call: its result is `CallOutcome` of the next two scripted
     * replies, it sends `AttemptCount` requests and makes the matching calls on the
     * authentication manager.
     */
    twostate predicate Performed(verb: Verb, path: string, json: Option<JsonObject>, new r: Result<JsonObject, ApiFailure>)
      reads this, auth, session
    {
      var g := old(auth.generation);
      var first := ReplyAt(session.script, |old(session.sent)|);
      var n := AttemptCount(first);
      && r == old(NextOutcome())
      && session.sent == old(session.sent) + SentRequests(verb, path, json, g, n)
      && auth.events == old(auth.events) + AuthTrace(g, n)
      && auth.generation == g + n - 1
    }

    /** `get(path)` */
    method Get(path: string) returns (r: Result<JsonObject, ApiFailure>)
      modifies this, auth, session
      ensures Performed(GET, path, None, r)
      ensures calls == old(calls) + [ApiCall(GET, path, None)]
    {
      r := Send(GET, path, None);
      calls := calls + [ApiCall(GET, path, None)];
    }

    /** `post(path, json_data=json)` */
    method Post(path: string, json: Option<JsonObject>) returns (r: Result<JsonObject, ApiFailure>)
      modifies this, auth, session
      ensures Performed(POST, path, json, r)
      ensures calls == old(calls) + [ApiCall(POST, path, json)]
    {
      r := Send(POST, path, json);
      calls := calls + [ApiCall(POST, path, json)];
    }

    /** The shared attempt loop behind `get` and `post`. */
    method Send(verb: Verb, path: string, json: Option<JsonObject>) returns (r: Result<JsonObject, ApiFailure>)
      modifies auth, session
      ensures Performed(verb, path, json, r)
    {
      ghost var g := auth.generation;
      ghost var n0 := |session.sent|;
      ghost var first := ReplyAt(session.script, n0);
      ghost var second := ReplyAt(session.script, n0 + 1);
      var attempt := 0;
      var retry := true;
      r := Err(NetworkError);
      while retry
        invariant 0 <= attempt <= MaxAttempts
        invariant retry ==> attempt < MaxAttempts
        invariant attempt == 0 ==> retry
        invariant attempt == 1 ==> retry == RetryEligible(first)
        invariant attempt == 2 ==> RetryEligible(first) && !retry
        invariant !retry ==> attempt == AttemptCount(first) && r == CallOutcome(first, second)
        invariant session.sent == old(session.sent) + SentRequests(verb, path, json, g, attempt)
        invariant auth.events == old(auth.events) + AuthTrace(g, attempt)
                                 + (if retry && attempt > 0 then [Invalidated] else [])
        invariant auth.generation == g + (if retry then attempt else attempt - 1)
        decreases MaxAttempts - attempt
      {
        var headers := auth.GetAuthHeaders();
        var reply := session.Send(Request(verb, path, headers, json));
        assert SentRequests(verb, path, json, g, attempt + 1)
            == SentRequests(verb, path, json, g, attempt) + [Request(verb, path, headers, json)];
        attempt := attempt + 1;
        if attempt < MaxAttempts && RetryEligible(reply) {
          auth.Invalidate();
        } else {
          retry := false;
          r := Settle(reply);
        }
      }
    }
  }
}
