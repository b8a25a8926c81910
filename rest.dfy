/**
 * The REST client of lib/rest.js: the request pool, the rate-limit table and the
 * triage of responses. The transport (OAuth or bearer-token HTTP) and `JSON.parse`
 * are not part of this model: a dispatched request is answered by an `Outcome` value.
 */
module Rest {
  import opened Wrappers
  import opened Js
  import opened Errors
  import opened Endpoints
  import opened Resources

  // ---------------------------------------------------------------------------
  // Rate limits

  /** The three `x-rate-limit-*` headers of a response; `None` is `undefined`. */
  datatype RateLimit = RateLimit(reset: Option<string>, remaining: Option<string>, limit: Option<string>)

  function Header(headers: map<string, string>, name: string): Option<string>
  {
    if name in headers then Some(headers[name]) else None
  }

  /** The `rateLimit` record `handleResponse` builds from a response's headers. */
  function RateLimitOf(response: RawResponse): (r: RateLimit)
    ensures r.reset.Some? <==> "x-rate-limit-reset" in response.headers
    ensures r.remaining.Some? <==> "x-rate-limit-remaining" in response.headers
    ensures r.limit.Some? <==> "x-rate-limit-limit" in response.headers
    ensures r.reset.Some? ==> r.reset.value == response.headers["x-rate-limit-reset"]
    ensures r.remaining.Some? ==> r.remaining.value == response.headers["x-rate-limit-remaining"]
    ensures r.limit.Some? ==> r.limit.value == response.headers["x-rate-limit-limit"]
  {
    RateLimit(
      Header(response.headers, "x-rate-limit-reset"),
      Header(response.headers, "x-rate-limit-remaining"),
      Header(response.headers, "x-rate-limit-limit"))
  }

  type Table = map<string, RateLimit>

  /**
   * The table after `updateRateLimits(resource, rateLimit)`: the entry of `resource`
   * is set when it is a registry key, and nothing else changes. An undefined
   * resource is `None`.
   */
  function WithRateLimit(table: Table, resource: Option<string>, rateLimit: RateLimit): (t: Table)
    ensures forall k :: k in t <==> k in table || (resource == Some(k) && IsKey(k))
    ensures forall k :: k in t ==> t[k] == (if resource == Some(k) && IsKey(k) then rateLimit else table[k])
  {
    if resource.Some? && IsKey(resource.value) then table[resource.value := rateLimit] else table
  }

  /** Updating twice with the same record is updating once. */
  lemma WithRateLimitIdempotent(table: Table, resource: Option<string>, rateLimit: RateLimit)
    ensures WithRateLimit(WithRateLimit(table, resource, rateLimit), resource, rateLimit)
         == WithRateLimit(table, resource, rateLimit)
  {
  }

  /** A table that holds only registry keys still does after an update. */
  lemma WithRateLimitKeys(table: Table, resource: Option<string>, rateLimit: RateLimit)
    requires forall k :: k in table ==> IsKey(k)
    ensures forall k :: k in WithRateLimit(table, resource, rateLimit) ==> IsKey(k)
  {
  }

  // ---------------------------------------------------------------------------
  // Requests and their triage

  /**
   * A queued request record. `id` stands for the record's object identity, which
   * `_.without` compares; `callback` is the identity of the callback function.
   */
  datatype Request = Request(id: nat, post: bool, url: string, resource: Option<string>, params: Value, callback: nat)

  /** What `JSON.parse(data)` does with a response body: a value, or a SyntaxError. */
  datatype Parse = Parsed(json: Value) | SyntaxError(message: string)

  /**
   * What the transport reports for a dispatched request: a body with its response,
   * or an error object with the response (if any) that came with it.
   */
  datatype Outcome =
    | Delivered(body: Parse, response: RawResponse)
    | Failed(error: TransportError, received: Option<RawResponse>)

  /** The error a callback is handed: a library error, a parse error, or the raw transport error. */
  datatype Failure = Library(error: Error) | Syntax(message: string) | Transport(raw: TransportError)

  /** The arguments of one callback invocation: `(null, json, rateLimit)` or `(error)`. */
  datatype Reply = Answer(json: Value, rateLimit: RateLimit) | Reject(failure: Failure)

  datatype Invocation = Invocation(callback: nat, reply: Reply)

  /** `_.without(pool, req)`: every record other than `req`, in pool order. */
  function Without(pool: seq<Request>, req: Request): (r: seq<Request>)
    ensures |r| <= |pool|
  {
    if pool == [] then []
    else (if pool[0] == req then [] else [pool[0]]) + Without(pool[1..], req)
  }

  predicate Distinct(pool: seq<Request>)
  {
    forall i, j :: 0 <= i < j < |pool| ==> pool[i].id != pool[j].id
  }

  /** A record that is not in the pool leaves it as it is. */
  lemma {:induction false} WithoutAbsent(pool: seq<Request>, req: Request)
    requires req !in pool
    ensures Without(pool, req) == pool
  {
    if pool != [] {
      WithoutAbsent(pool[1..], req);
      assert pool == [pool[0]] + pool[1..];
    }
  }

  /** With distinct identities, removing the record at `i` keeps the others in order. */
  lemma {:induction false} WithoutAt(pool: seq<Request>, req: Request, i: nat)
    requires Distinct(pool) && i < |pool| && pool[i] == req
    ensures Without(pool, req) == pool[..i] + pool[i + 1..]
  {
    if i == 0 {
      assert req !in pool[1..] by {
        forall j | 0 <= j < |pool[1..]| ensures pool[1..][j] != req {
          assert pool[j + 1].id != pool[0].id;
        }
      }
      WithoutAbsent(pool[1..], req);
    } else {
      assert Distinct(pool[1..]) by {
        forall a, b | 0 <= a < b < |pool[1..]| ensures pool[1..][a].id != pool[1..][b].id {
          assert pool[a + 1].id != pool[b + 1].id;
        }
      }
      WithoutAt(pool[1..], req, i - 1);
      assert pool[0] != req by {
        assert pool[0].id != pool[i].id;
      }
      assert pool[..i] == [pool[0]] + pool[1..][..i - 1];
      assert pool[i + 1..] == pool[1..][i..];
    }
  }

  /**
   * What the client keeps true of its pool: distinct identities, all below the next
   * one to hand out, and resources that are registry keys.
   */
  predicate PoolInvariant(pool: seq<Request>, nextId: nat)
  {
    Distinct(pool) &&
    (forall i :: 0 <= i < |pool| ==> pool[i].id < nextId) &&
    (forall i :: 0 <= i < |pool| && pool[i].resource.Some? ==> IsKey(pool[i].resource.value))
  }

  /** Taking out one position keeps the pool invariant. */
  lemma RemoveAtInvariant(pool: seq<Request>, i: nat, nextId: nat)
    requires PoolInvariant(pool, nextId) && i < |pool|
    ensures PoolInvariant(pool[..i] + pool[i + 1..], nextId)
  {
    var r := pool[..i] + pool[i + 1..];
    assert forall a :: 0 <= a < |r| ==> r[a] == pool[if a < i then a else a + 1];
    forall a, b | 0 <= a < b < |r| ensures r[a].id != r[b].id {
      var a' := if a < i then a else a + 1;
      var b' := if b < i then b else b + 1;
      assert r[a] == pool[a'] && r[b] == pool[b'];
    }
  }

  /**
   * Removing a record keeps the pool invariant, and takes out exactly the position
   * the record held, if any.
   */
  lemma WithoutInvariant(pool: seq<Request>, req: Request, nextId: nat)
    requires PoolInvariant(pool, nextId)
    ensures PoolInvariant(Without(pool, req), nextId)
    ensures req !in pool ==> Without(pool, req) == pool
    ensures forall i :: 0 <= i < |pool| && pool[i] == req ==> Without(pool, req) == pool[..i] + pool[i + 1..]
  {
    if req in pool {
      var i :| 0 <= i < |pool| && pool[i] == req;
      WithoutAt(pool, req, i);
      RemoveAtInvariant(pool, i, nextId);
      forall k | 0 <= k < |pool| && pool[k] == req ensures Without(pool, req) == pool[..k] + pool[k + 1..] {
        WithoutAt(pool, req, k);
      }
    } else {
      WithoutAbsent(pool, req);
    }
  }

  // ---------------------------------------------------------------------------
  // Argument checks of queueRequest

  /** `/post/i.test(method)`. */
  predicate IsPost(httpMethod: string)
  {
    Test(Compile("post"), httpMethod)
  }

  lemma FoldStringLower(s: string)
    requires forall j :: 0 <= j < |s| ==> !('A' <= s[j] <= 'Z')
    ensures FoldString(s) == s
  {
  }

  /** A method is a POST exactly when it holds `post` in any case. */
  lemma IsPostSpec(httpMethod: string)
    ensures IsPost(httpMethod) <==> Contains(FoldString(httpMethod), "post")
  {
    assert NoDoubleSlash("post");
    FoldStringLower("post");
    PlainPathIsSubstring("post", httpMethod);
  }

  const RelativeUrlMessage := "must be a relative URL"

  /**
   * The url normalisation of `queueRequest`: a url that does not start with `/`
   * gets one prepended, and is then rejected if `/http/i` finds a match in it.
   */
  function NormaliseUrl(url: string): (r: Result<string, Error>)
    ensures r.Success? ==> |r.value| > 0 && r.value[0] == '/'
    ensures r.Failure? ==> r.error == NewArgumentError("url", RelativeUrlMessage)
  {
    if |url| > 0 && url[0] == '/' then Success(url)
    else
      var u := "/" + url;
      if Test(Compile("http"), u) then Failure(NewArgumentError("url", RelativeUrlMessage))
      else Success(u)
  }

  /** `w`, which does not begin with `/`, occurs in `"/" + s` exactly when it occurs in `s`. */
  lemma ContainsAfterSlash(s: string, w: string)
    requires w != [] && w[0] != '/'
    ensures Contains("/" + s, w) <==> Contains(s, w)
  {
    var t := "/" + s;
    if Contains(t, w) {
      var i :| 0 <= i <= |t| && OccursAt(t, w, i);
      assert i != 0;
      assert t[i..i + |w|] == s[i - 1..i - 1 + |w|];
      assert OccursAt(s, w, i - 1);
    }
    if Contains(s, w) {
      var i :| 0 <= i <= |s| && OccursAt(s, w, i);
      assert t[i + 1..i + 1 + |w|] == s[i..i + |w|];
      assert OccursAt(t, w, i + 1);
    }
  }

  /**
   * A url already starting with `/` is kept and never rejected; any other url is
   * rejected exactly when it contains `http` in any case, and otherwise gets a
   * leading `/`.
   */
  lemma NormaliseUrlSpec(url: string)
    ensures |url| > 0 && url[0] == '/' ==> NormaliseUrl(url) == Success(url)
    ensures !(|url| > 0 && url[0] == '/') ==>
      (NormaliseUrl(url).Failure? <==> Contains(FoldString(url), "http")) &&
      (NormaliseUrl(url).Success? ==> NormaliseUrl(url).value == "/" + url)
  {
    if !(|url| > 0 && url[0] == '/') {
      var u := "/" + url;
      assert NoDoubleSlash("http");
      FoldStringLower("http");
      PlainPathIsSubstring("http", u);
      assert FoldString(u) == "/" + FoldString(url);
      ContainsAfterSlash(FoldString(url), "http");
    }
  }

  /** `params.contentType || 'application/json'`. */
  function DefaultContentType(contentType: Value): (v: Value)
    ensures Truthy(v)
    ensures Truthy(contentType) ==> v == contentType
    ensures !Truthy(contentType) ==> v == Str("application/json")
  {
    if Truthy(contentType) then contentType else Str("application/json")
  }

  /** Whether `params` passes the two POST checks (a truthy object with a truthy `content`). */
  predicate HasContent(params: Value)
    reads Footprint(params)
  {
    Truthy(params) && Truthy(Field(params, "content"))
  }

  /**
   * The checks of `queueRequest`, in the order it throws them: for a POST, missing
   * params, then missing `params.content`; then a callback that is not a function;
   * then the url. The result is the normalised url or the first error.
   */
  function QueueCheck(post: bool, params: Value, callback: Value, url: string): (r: Result<string, Error>)
    reads Footprint(params)
    ensures post && !Truthy(params) ==>
      r == Failure(NewArgumentRequiredError("params", Some("for POST")))
    ensures post && Truthy(params) && !HasContent(params) ==>
      r == Failure(NewArgumentRequiredError("params.content", Some("for POST")))
    ensures (!post || HasContent(params)) && !callback.Fn? ==> r == Failure(NewNoCallbackError())
    ensures (!post || HasContent(params)) && callback.Fn? ==> r == NormaliseUrl(url)
    ensures r.Success? ==> callback.Fn? && (post ==> params.Obj?)
  {
    if post && !Truthy(params) then Failure(NewArgumentRequiredError("params", Some("for POST")))
    else if post && !HasContent(params) then Failure(NewArgumentRequiredError("params.content", Some("for POST")))
    else if !callback.Fn? then Failure(NewNoCallbackError())
    else NormaliseUrl(url)
  }

  /**
   * The checks of `queueRequest` once params and callback are settled, as they run:
   * the result is `QueueCheck`'s, and a POST's `contentType` is defaulted in place
   * as soon as both POST checks pass, before the callback and the url are looked at.
   */
  method CheckArguments(post: bool, params: Value, callback: Value, url: string) returns (r: Result<string, Error>)
    modifies Footprint(params)
    ensures r == old(QueueCheck(post, params, callback, url))
    ensures post && old(HasContent(params)) ==>
      params.o.props == old(params.o.props)["contentType" := DefaultContentType(old(Field(params, "contentType")))]
    ensures !(post && old(HasContent(params))) ==> forall o :: o in Footprint(params) ==> o.props == old(o.props)
  {
    ghost var expected := QueueCheck(post, params, callback, url);
    if post {
      if !Truthy(params) {
        return Failure(NewArgumentRequiredError("params", Some("for POST")));
      }
      if !Truthy(Field(params, "content")) {
        return Failure(NewArgumentRequiredError("params.content", Some("for POST")));
      }
      params.o.props := params.o.props["contentType" := DefaultContentType(Field(params, "contentType"))];
    }
    if !callback.Fn? {
      return Failure(NewNoCallbackError());
    }
    var u := url;
    if |u| == 0 || u[0] != '/' {
      u := "/" + u;
      if Test(Compile("http"), u) {
        return Failure(NewArgumentError("url", RelativeUrlMessage));
      }
    }
    return Success(u);
  }

  // ---------------------------------------------------------------------------
  // The client

  function Min(a: nat, b: nat): nat
  {
    if a <= b then a else b
  }

  class Client {
    /** `options.rest_base`. */
    const restBase: string
    /** `state.requestPool`: the records queued and not yet answered successfully. */
    var requestPool: seq<Request>
    /** `state.rateLimits`: the last rate-limit record seen per registry key. */
    var rateLimits: Table
    /** Every callback invocation made so far, in order. */
    var calls: seq<Invocation>
    /** The identity the next queued record gets. */
    var nextId: nat

    ghost predicate Valid()
      reads this
    {
      PoolInvariant(requestPool, nextId) && (forall k :: k in rateLimits ==> IsKey(k))
    }

    constructor (restBase: string)
      ensures Valid()
      ensures this.restBase == restBase && requestPool == [] && rateLimits == map[] && calls == []
    {
      this.restBase := restBase;
      requestPool := [];
      rateLimits := map[];
      calls := [];
      nextId := 0;
    }

    /** `updateRateLimits(resource, rateLimit)`. */
    method UpdateRateLimits(resource: Option<string>, rateLimit: RateLimit)
      requires Valid()
      modifies this
      ensures Valid()
      ensures rateLimits == WithRateLimit(old(rateLimits), resource, rateLimit)
      ensures requestPool == old(requestPool) && calls == old(calls) && nextId == old(nextId)
    {
      WithRateLimitKeys(rateLimits, resource, rateLimit);
      if resource.Some? && resource.value in Keys() {
        rateLimits := rateLimits[resource.value := rateLimit];
      }
    }

    /**
     * `queueRequest(method, url, params, callback)`. On success the record is appended
     * at the tail; on an error (the thrown error is returned) the pool is as before.
     * A POST's `contentType` is defaulted in place once both POST checks pass, even
     * if a later check throws.
     */
    method Queue(httpMethod: string, url: string, params: Value, callback: Value) returns (err: Option<Error>)
      requires Valid()
      modifies this, Footprint(params)
      ensures Valid()
      ensures var p := if params.Fn? then Null else params;
              var c := if params.Fn? then params else callback;
              var check := old(QueueCheck(IsPost(httpMethod), p, c, url));
              && (err.Some? <==> check.Failure?)
              && (err.Some? ==> err.value == check.error && requestPool == old(requestPool))
              && (err.None? ==> requestPool == old(requestPool) + [Request(old(nextId), IsPost(httpMethod),
                    restBase + check.value, ResourceOf(check.value, IsPost(httpMethod)), p, c.id)])
      ensures var p := if params.Fn? then Null else params;
              IsPost(httpMethod) && old(HasContent(p)) ==>
                p.o.props == old(p.o.props)["contentType" := DefaultContentType(old(Field(p, "contentType")))]
      ensures !(IsPost(httpMethod) && old(HasContent(if params.Fn? then Null else params))) ==>
                forall o :: o in Footprint(params) ==> o.props == old(o.props)
      ensures rateLimits == old(rateLimits) && calls == old(calls)
    {
      var post := IsPost(httpMethod);
      var p, c := params, callback;
      if p.Fn? {
        c := p;
        p := Null;
      }
      var checked := CheckArguments(post, p, c, url);
      if checked.Failure? {
        return Some(checked.error);
      }
      var resource := ResourceFromUrl(checked.value, post);
      ResourceOfIsKey(checked.value, post);
      Enqueue(post, checked.value, resource, p, c.id);
      return None;
    }

    /** `state.requestPool.push(...)`: the record is appended with the next identity. */
    method Enqueue(post: bool, url: string, resource: Option<string>, params: Value, callback: nat)
      requires Valid() && (resource.Some? ==> IsKey(resource.value))
      modifies this
      ensures Valid()
      ensures requestPool == old(requestPool) + [Request(old(nextId), post, restBase + url, resource, params, callback)]
      ensures rateLimits == old(rateLimits) && calls == old(calls) && nextId == old(nextId) + 1
    {
      requestPool := requestPool + [Request(nextId, post, restBase + url, resource, params, callback)];
      nextId := nextId + 1;
    }

    /**
     * `drainPool(limit)`: the records dispatched, in pool order. A falsy limit
     * (0 here) means 180. The pool itself is not changed.
     */
    method Drain(limit: nat) returns (batch: seq<Request>)
      ensures |batch| == Min(if limit == 0 then 180 else limit, |requestPool|)
      ensures batch == requestPool[..|batch|]
    {
      var n := if limit == 0 then 180 else limit;
      batch := [];
      var i := 0;
      while i < |requestPool| && i < n
        invariant 0 <= i <= |requestPool| && i <= n
        invariant batch == requestPool[..i]
      {
        batch := batch + [requestPool[i]];
        i := i + 1;
      }
    }

    /**
     * `handleResponse` for the record `req`. A delivered body that parses updates
     * the table for the record's resource, answers the callback and removes the
     * record from the pool. Anything else rejects the callback and leaves the pool
     * and the table alone; a transport error with a truthy status code gets the
     * response attached and is wrapped in an HTTPError. `statusText` stands for the
     * status-code table's entry for that code.
     */
    method Triage(req: Request, outcome: Outcome, statusText: string)
      requires Valid()
      modifies this
      ensures Valid()
      ensures nextId == old(nextId)
      ensures outcome.Delivered? && outcome.body.Parsed? ==>
        var rateLimit := RateLimitOf(outcome.response);
        && rateLimits == WithRateLimit(old(rateLimits), req.resource, rateLimit)
        && calls == old(calls) + [Invocation(req.callback, Answer(outcome.body.json, rateLimit))]
        && requestPool == Without(old(requestPool), req)
        && (forall i :: 0 <= i < |old(requestPool)| && old(requestPool)[i] == req ==>
              requestPool == old(requestPool)[..i] + old(requestPool)[i + 1..])
      ensures !(outcome.Delivered? && outcome.body.Parsed?) ==>
        rateLimits == old(rateLimits) && requestPool == old(requestPool)
      ensures outcome.Delivered? && outcome.body.SyntaxError? ==>
        calls == old(calls) + [Invocation(req.callback, Reject(Syntax(outcome.body.message)))]
      ensures outcome.Failed? && Truthy(StatusValue(outcome.error)) ==>
        calls == old(calls) + [Invocation(req.callback, Reject(Library(
          NewHTTPError(outcome.error.(response := outcome.received), statusText))))]
      ensures outcome.Failed? && !Truthy(StatusValue(outcome.error)) ==>
        calls == old(calls) + [Invocation(req.callback, Reject(Transport(outcome.error)))]
    {
      match outcome
      case Delivered(Parsed(json), response) =>
        var rateLimit := RateLimitOf(response);
        UpdateRateLimits(req.resource, rateLimit);
        calls := calls + [Invocation(req.callback, Answer(json, rateLimit))];
        WithoutInvariant(requestPool, req, nextId);
        requestPool := Without(requestPool, req);
      case Delivered(SyntaxError(message), _) =>
        calls := calls + [Invocation(req.callback, Reject(Syntax(message)))];
      case Failed(error, response) =>
        if Truthy(StatusValue(error)) {
          var e := NewHTTPError(error.(response := response), statusText);
          calls := calls + [Invocation(req.callback, Reject(Library(e)))];
        } else {
          calls := calls + [Invocation(req.callback, Reject(Transport(error)))];
        }
    }
  }

  /** `error.statusCode` as a JavaScript value. */
  function StatusValue(error: TransportError): Value
  {
    if error.statusCode.Some? then Num(error.statusCode.value) else Undefined
  }
}
