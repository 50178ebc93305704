/** The request layer of the crawler: a `Request` that retries its own
    transport call, the `BaseSpider` helpers that build requests from a
    parsed URL and keyword arguments, and the `Downloader` that drains its
    queue through an ordered extension chain.

    The HTTP transport, the priority queue's internal order and the thread
    machinery are outside the model: the transport is an oracle giving a
    status code per attempt, the queue is a multiset from which any element
    may be popped, and a started request is recorded in the `running` FIFO. */
module Network {
  import opened PyValues

  // ---------------------------------------------------------------------
  // Request.__init__
  // ---------------------------------------------------------------------

  /** `Request.__DEFAULT_METHOD_VALUE__`. */
  const AllowedMethods: seq<string> := ["GET", "POST", "HEAD", "OPTIONS", "PUT", "PATCH", "DELETE"]

  /** The fields `Request.__init__` sets from its arguments. */
  datatype RequestFields = RequestFields(
    url: Value,
    httpMethod: string,
    requestKwargs: map<string, Value>,
    priority: Value,
    maxRetry: int,
    callback: Value,
    session: Value,
    args: Value)

  /** Why `Request.__init__` fails: `.upper()` on a non-string raises, and an
      unknown method trips the assertion. */
  datatype InitError = MethodNotString(given: Value) | InvalidMethod(name: string)

  /** `method.upper() or 'GET'`. */
  function NormaliseMethod(m: string): (r: string)
    ensures m == "" ==> r == "GET"
    ensures m != "" ==> r == Upper(m)
  {
    if Upper(m) == "" then "GET" else Upper(m)
  }

  /** `kwargs.get('max_retry') or 0` read as a number. */
  function RetryBudget(v: Value): (n: int)
    ensures !Truthy(v) ==> n == 0
    ensures v.VInt? ==> n == v.i
  {
    match v
    case VInt(i) => i
    case VBool(b) => if b then 1 else 0
    case _ => 0
  }

  /** `{k: v for k, v in kwargs.items() if k in keys}`. */
  function KeepKeys(kwargs: map<string, Value>, keys: set<string>): (r: map<string, Value>)
    ensures r.Keys == kwargs.Keys * keys
    ensures forall k :: k in r ==> r[k] == kwargs[k]
  {
    map k | k in kwargs && k in keys :: kwargs[k]
  }

  /** `Request.__init__(url, method, args, **kwargs)`; `requestKeys` is the
      configured `__REQUEST_KEYS__` set. */
  function InitRequest(url: Value, httpMethod: Value, args: Value, kwargs: map<string, Value>,
                       requestKeys: set<string>): (r: Result<RequestFields, InitError>)
    ensures r.Ok? <==> httpMethod.VStr? && NormaliseMethod(httpMethod.s) in AllowedMethods
    ensures r.Ok? ==> r.value.httpMethod in AllowedMethods
    ensures r.Ok? ==> r.value.requestKwargs.Keys == kwargs.Keys * requestKeys
    ensures r.Ok? ==> forall k :: k in r.value.requestKwargs ==> r.value.requestKwargs[k] == kwargs[k]
    ensures r.Ok? ==>
      var body := ("data" in requestKeys && Truthy(Get(kwargs, "data")))
               || ("json" in requestKeys && Truthy(Get(kwargs, "json")));
      r.value.httpMethod == if body then "POST" else NormaliseMethod(httpMethod.s)
    ensures r.Ok? ==> r.value.priority == (if Truthy(Get(kwargs, "priority")) then kwargs["priority"] else VInt(0))
    ensures r.Ok? ==> r.value.priority != VNone
    ensures r.Ok? ==> r.value.maxRetry == RetryBudget(Get(kwargs, "max_retry"))
    ensures r.Ok? ==> r.value.args == (if Truthy(args) then args else VTuple([]))
    ensures r.Ok? ==> r.value.url == url && r.value.callback == Get(kwargs, "callback")
                      && r.value.session == Get(kwargs, "session")
  {
    if !httpMethod.VStr? then Err(MethodNotString(httpMethod))
    else
      var m := NormaliseMethod(httpMethod.s);
      if m !in AllowedMethods then Err(InvalidMethod(httpMethod.s))
      else
        var rk := KeepKeys(kwargs, requestKeys);
        var m' := if Truthy(Get(rk, "data")) || Truthy(Get(rk, "json")) then "POST" else m;
        Ok(RequestFields(url, m', rk, Or(Get(kwargs, "priority"), VInt(0)),
                         RetryBudget(Get(kwargs, "max_retry")), Get(kwargs, "callback"),
                         Get(kwargs, "session"), Or(args, VTuple([]))))
  }

  // ---------------------------------------------------------------------
  // Request.run
  // ---------------------------------------------------------------------

  /** What one attempt hands to the transport: through the session (without
      cookies) when one is set, otherwise directly with every request kwarg. */
  datatype TransportCall = TransportCall(session: Value, httpMethod: string, url: Value, kwargs: map<string, Value>)

  /** The transport: the status code of the `attempt`-th call. */
  type Transport = (TransportCall, nat) -> int

  /** The response a request keeps: its status and the attempt it came from. */
  datatype ResponseMeta = ResponseMeta(status: int, attempt: nat)

  /** One call of the user callback, with the `retry_count` visible at that moment. */
  datatype Invocation = Invocation(callback: Value, response: ResponseMeta, args: seq<Value>, retryCount: int)

  datatype RunLog = RunLog(calls: seq<TransportCall>, invocations: seq<Invocation>)

  /** `assert isinstance(self.session, Session)` failing. */
  datatype RunError = SessionRejected(session: Value)

  /** network.py:57-62 */
  function CallFor(httpMethod: string, url: Value, kwargs: map<string, Value>, session: Value): TransportCall {
    if Truthy(session) then TransportCall(session, httpMethod, url, map k | k in kwargs && k != "cookies" :: kwargs[k])
    else TransportCall(VNone, httpMethod, url, kwargs)
  }

  /** With a session the call goes through it and drops `cookies`;
      without one every kwarg is passed on unchanged. */
  lemma CallForShape(httpMethod: string, url: Value, kwargs: map<string, Value>, session: Value)
    ensures var c := CallFor(httpMethod, url, kwargs, session);
      && c.httpMethod == httpMethod && c.url == url
      && (Truthy(session) ==> c.session == session && c.kwargs.Keys == kwargs.Keys - {"cookies"}
                              && forall k :: k in c.kwargs ==> c.kwargs[k] == kwargs[k])
      && (!Truthy(session) ==> c.session == VNone && c.kwargs == kwargs)
  {
  }

  /** `self.args` as the tuple the callback receives. */
  function ArgsTuple(args: Value): seq<Value> {
    if args.VTuple? then args.items else [args]
  }

  function NonNegative(n: int): nat {
    if n > 0 then n else 0
  }

  /** How many retries `run` makes starting at attempt `from` with
      `max_retry == budget`: it retries while the status is not 200 and the
      budget is positive. */
  function Retries(transport: Transport, call: TransportCall, from: nat, budget: int): (k: nat)
    ensures k <= NonNegative(budget)
    decreases NonNegative(budget)
  {
    if transport(call, from) != 200 && budget > 0 then 1 + Retries(transport, call, from + 1, budget - 1)
    else 0
  }

  /** Every attempt before the last one failed, and the last one answered
      200 unless the budget ran out. */
  lemma {:induction false} RetriesStopAtFirstSuccess(transport: Transport, call: TransportCall, from: nat, budget: int)
    ensures var k := Retries(transport, call, from, budget);
      && (forall j :: from <= j < from + k ==> transport(call, j) != 200)
      && (k < budget ==> transport(call, from + k) == 200)
    decreases NonNegative(budget)
  {
    if transport(call, from) != 200 && budget > 0 {
      RetriesStopAtFirstSuccess(transport, call, from + 1, budget - 1);
    }
  }

  /** A transport that never answers 200 makes `run` spend its whole budget:
      `max_retry + 1` attempts in all. */
  lemma {:induction false} AlwaysFailingSpendsBudget(transport: Transport, call: TransportCall, from: nat, budget: int)
    requires forall j :: transport(call, j) != 200
    ensures Retries(transport, call, from, budget) == NonNegative(budget)
    decreases NonNegative(budget)
  {
    if budget > 0 {
      AlwaysFailingSpendsBudget(transport, call, from + 1, budget - 1);
    }
  }

  /** The attempt whose response `run` finally keeps. */
  function FinalAttempt(transport: Transport, call: TransportCall, from: nat, budget: int): (a: nat)
    ensures a == from + Retries(transport, call, from, budget)
    decreases NonNegative(budget)
  {
    if transport(call, from) != 200 && budget > 0 then FinalAttempt(transport, call, from + 1, budget - 1)
    else from
  }

  /** The response `run` finally keeps. */
  function FinalResponse(transport: Transport, call: TransportCall, from: nat, budget: int): ResponseMeta {
    var a := FinalAttempt(transport, call, from, budget);
    ResponseMeta(transport(call, a), a)
  }

  /** The kept response is the first 200 within the budget, or the last
      attempt once the budget is spent. */
  lemma FinalResponseIsFirstSuccess(transport: Transport, call: TransportCall, from: nat, budget: int)
    ensures var r := FinalResponse(transport, call, from, budget);
      && from <= r.attempt <= from + NonNegative(budget)
      && r.status == transport(call, r.attempt)
      && (r.attempt < from + budget ==> r.status == 200)
      && (forall j :: from <= j < r.attempt ==> transport(call, j) != 200)
  {
    RetriesStopAtFirstSuccess(transport, call, from, budget);
  }

  /** The retries are decided by the statuses alone: two transports that agree
      on the first `budget + 1` attempts make `run` retry equally often. */
  lemma {:induction false} RetriesDependOnPrefix(t1: Transport, t2: Transport, call: TransportCall, from: nat, budget: int)
    requires forall j :: from <= j <= from + NonNegative(budget) ==> t1(call, j) == t2(call, j)
    ensures Retries(t1, call, from, budget) == Retries(t2, call, from, budget)
    decreases NonNegative(budget)
  {
    if t1(call, from) != 200 && budget > 0 {
      RetriesDependOnPrefix(t1, t2, call, from + 1, budget - 1);
    }
  }

  class Request {
    var url: Value
    var httpMethod: string
    var requestKwargs: map<string, Value>
    var response: Option<ResponseMeta>
    var priority: Value
    var maxRetry: int
    var callback: Value
    var session: Value
    var retryCount: int
    var args: Value

    /** The fields `__init__` sets from its arguments, as they are now. */
    function Fields(): RequestFields
      reads this
    {
      RequestFields(url, httpMethod, requestKwargs, priority, maxRetry, callback, session, args)
    }

    /** The object part of `Request.__init__`, once the arguments are validated. */
    constructor (f: RequestFields)
      ensures Fields() == f
      ensures response == None && retryCount == 0
    {
      url, httpMethod, requestKwargs := f.url, f.httpMethod, f.requestKwargs;
      priority, maxRetry, callback := f.priority, f.maxRetry, f.callback;
      session, args := f.session, f.args;
      response := None;
      retryCount := 0;
    }

    /** `Request(url, method, args, **kwargs)`, failing where `__init__` raises. */
    static method Create(url: Value, httpMethod: Value, args: Value, kwargs: map<string, Value>, requestKeys: set<string>)
      returns (r: Result<Request, InitError>)
      ensures InitRequest(url, httpMethod, args, kwargs, requestKeys).Err? <==> r.Err?
      ensures r.Err? ==> r.error == InitRequest(url, httpMethod, args, kwargs, requestKeys).error
      ensures r.Ok? ==> fresh(r.value) && r.value.response == None && r.value.retryCount == 0
                        && r.value.Fields() == InitRequest(url, httpMethod, args, kwargs, requestKeys).value
    {
      var f := InitRequest(url, httpMethod, args, kwargs, requestKeys);
      if f.Err? {
        return Err(f.error);
      }
      var q := new Request(f.value);
      return Ok(q);
    }

    /** `Request.run`: one transport call per attempt, the `attempt`-th status
        read from `transport`; on a non-200 status with budget left it
        decrements `max_retry`, recurses, and counts the retry on the way
        out; otherwise it keeps the response and calls the callback once. */
    method Run(transport: Transport, attempt: nat) returns (r: Result<RunLog, RunError>)
      modifies this`maxRetry, this`retryCount, this`response, this`args
      ensures url == old(url) && httpMethod == old(httpMethod) && requestKwargs == old(requestKwargs)
      ensures priority == old(priority) && callback == old(callback) && session == old(session)
      ensures r.Err? <==> Truthy(old(session)) && !old(session).VSession?
      ensures r.Err? ==> maxRetry == old(maxRetry) && retryCount == old(retryCount)
                         && response == old(response) && args == old(args)
      ensures r.Ok? ==> |r.value.calls| == Retries(transport, CallFor(httpMethod, url, requestKwargs, session), attempt, old(maxRetry)) + 1
      ensures r.Ok? ==> forall i :: 0 <= i < |r.value.calls| ==> r.value.calls[i] == CallFor(httpMethod, url, requestKwargs, session)
      ensures r.Ok? ==> maxRetry == old(maxRetry) - Retries(transport, CallFor(httpMethod, url, requestKwargs, session), attempt, old(maxRetry))
      ensures r.Ok? ==> retryCount == old(retryCount) + Retries(transport, CallFor(httpMethod, url, requestKwargs, session), attempt, old(maxRetry))
      ensures r.Ok? ==> args == VTuple(ArgsTuple(old(args)))
      ensures r.Ok? ==> response == Some(FinalResponse(transport, CallFor(httpMethod, url, requestKwargs, session), attempt, old(maxRetry)))
      ensures r.Ok? ==>
                r.value.invocations == (if Truthy(callback) then [Invocation(callback, FinalResponse(transport, CallFor(httpMethod, url, requestKwargs, session), attempt, old(maxRetry)), ArgsTuple(old(args)), old(retryCount))] else [])
      decreases NonNegative(maxRetry)
    {
      if Truthy(session) && !session.VSession? {
        return Err(SessionRejected(session));
      }
      var call := CallFor(httpMethod, url, requestKwargs, session);
      var status := transport(call, attempt);
      if status != 200 && maxRetry > 0 {
        ghost var budget := maxRetry;
        maxRetry := maxRetry - 1;
        var inner := Run(transport, attempt + 1);
        assert CallFor(httpMethod, url, requestKwargs, session) == call;
        assert FinalAttempt(transport, call, attempt, budget) == FinalAttempt(transport, call, attempt + 1, budget - 1);
        assert FinalResponse(transport, call, attempt, budget) == FinalResponse(transport, call, attempt + 1, budget - 1);
        ghost var k := Retries(transport, call, attempt + 1, budget - 1);
        assert Retries(transport, call, attempt, budget) == 1 + k;
        assert retryCount + 1 == old(retryCount) + 1 + k;
        retryCount := retryCount + 1;
        var calls := [call] + inner.value.calls;
        assert forall i :: 0 < i < |calls| ==> calls[i] == inner.value.calls[i - 1];
        r := Ok(RunLog(calls, inner.value.invocations));
      } else {
        assert Retries(transport, call, attempt, maxRetry) == 0;
        assert FinalResponse(transport, call, attempt, maxRetry) == ResponseMeta(status, attempt);
        var final := ResponseMeta(status, attempt);
        response := Some(final);
        var tuple := ArgsTuple(args);
        args := VTuple(tuple);
        var invocations := if Truthy(callback) then [Invocation(callback, final, tuple, retryCount)] else [];
        r := Ok(RunLog([call], invocations));
      }
    }
  }

  /** With `max_retry == M` and `retry_count == 0` at the start, `run` makes
      at most `M + 1` attempts and leaves `retry_count + max_retry == M`. */
  method RunFromFresh(q: Request, transport: Transport) returns (r: Result<RunLog, RunError>)
    requires q.retryCount == 0 && q.maxRetry >= 0
    modifies q
    ensures r.Ok? ==> |r.value.calls| <= old(q.maxRetry) + 1
    ensures r.Ok? ==> q.retryCount + q.maxRetry == old(q.maxRetry) && 0 <= q.retryCount
    ensures r.Ok? ==> |r.value.invocations| <= 1
    ensures r.Ok? ==> forall v :: v in r.value.invocations ==> v.retryCount == 0
  {
    r := q.Run(transport, 0);
  }

  // ---------------------------------------------------------------------
  // BaseSpider
  // ---------------------------------------------------------------------

  /** The parsed URL `url_to_dict` produces. */
  datatype UrlParts = UrlParts(protocol: string, domain: string, path: seq<string>, param: seq<(string, string)>)

  /** The state `BaseSpider.__init__` sets up; `url`, `data` and `json` hold
      the already-converted forms (`url_to_dict`, `body_to_dict`,
      `json_to_dict`), and `session` is the `Session()` made when asked. */
  datatype BaseSpider = BaseSpider(
    httpMethod: Value,
    url: UrlParts,
    data: Value,
    json: Value,
    headers: map<string, Value>,
    cookies: Value,
    requestKwargs: map<string, Value>,
    useSession: bool,
    session: Value)

  /** The keys of `self.spider`, which never reach `request_kwargs`. */
  const ReservedKeys: set<string> := {"url", "data", "json", "headers", "cookies"}

  /** network.py:94-95: an explicit method is kept; otherwise POST exactly
      when there is a body. */
  function SpiderMethod(httpMethod: Value, data: Value, json: Value): (m: Value)
    ensures Truthy(httpMethod) ==> m == httpMethod
    ensures !Truthy(httpMethod) ==> (m == VStr("POST") <==> Truthy(data) || Truthy(json))
    ensures !Truthy(httpMethod) ==> m == VStr("POST") || m == VStr("GET")
  {
    if Truthy(httpMethod) then httpMethod
    else if Truthy(data) || Truthy(json) then VStr("POST") else VStr("GET")
  }

  /** network.py:105-108 */
  function SpiderRequestKwargs(kwargs: map<string, Value>, requestKeys: set<string>): (r: map<string, Value>)
    ensures r.Keys == (kwargs.Keys * requestKeys) - ReservedKeys
    ensures forall k :: k in r ==> r[k] == kwargs[k]
  {
    map k | k in kwargs && k in requestKeys && k !in ReservedKeys :: kwargs[k]
  }

  const FormContentType: string := "application/x-www-form-urlencoded; charset=UTF-8"
  const JsonContentType: string := "application/json; charset=UTF-8"

  /** `_init_header` as intended: a `User-Agent` (the random pick from
      `USER_AGENT_LIST` is the parameter `userAgent`), and for POST a
      `Content-Type`, JSON when the converted `json` is truthy. */
  function InitHeader(httpMethod: Value, jsonConverted: Value, userAgent: Value): (h: map<string, Value>)
    ensures "User-Agent" in h && h["User-Agent"] == userAgent
    ensures "Content-Type" in h <==> httpMethod == VStr("POST")
    ensures "Content-Type" in h ==>
      h["Content-Type"] == VStr(if Truthy(jsonConverted) then JsonContentType else FormContentType)
    ensures h.Keys <= {"User-Agent", "Content-Type"}
  {
    if httpMethod == VStr("POST") then
      var contentType := if Truthy(jsonConverted) then JsonContentType else FormContentType;
      map["User-Agent" := userAgent, "Content-Type" := VStr(contentType)]
    else
      map["User-Agent" := userAgent]
  }

  /** `BaseSpider.__init__` as intended: `_init_header` sees the method just
      chosen and the converted `json`. */
  function InitBaseSpider(url: UrlParts, httpMethod: Value, data: Value, json: Value,
                          dataConverted: Value, jsonConverted: Value, userAgent: Value,
                          headers: map<string, Value>, cookies: Value,
                          useSession: bool, sessionId: nat,
                          kwargs: map<string, Value>, requestKeys: set<string>): (s: BaseSpider)
    ensures s.httpMethod == SpiderMethod(httpMethod, data, json)
    ensures s.requestKwargs.Keys !! ReservedKeys
    ensures s.requestKwargs.Keys <= requestKeys
    ensures forall k :: k in kwargs && k in requestKeys && k !in ReservedKeys ==>
      k in s.requestKwargs && s.requestKwargs[k] == kwargs[k]
    ensures var initHeader := InitHeader(s.httpMethod, jsonConverted, userAgent);
      && s.headers.Keys == initHeader.Keys + headers.Keys
      && forall k :: k in s.headers ==> s.headers[k] == (if k in headers then headers[k] else initHeader[k])
    ensures Truthy(s.session) <==> useSession
  {
    var m := SpiderMethod(httpMethod, data, json);
    BaseSpider(m, url, dataConverted, jsonConverted,
               InitHeader(m, jsonConverted, userAgent) + headers, cookies, SpiderRequestKwargs(kwargs, requestKeys),
               useSession, if useSession then VSession(sessionId) else VNone)
  }

  /** A spider built without explicit headers sends the content type its
      body calls for: form data for `data`, JSON for `json`. */
  lemma BodySpiderContentType(url: UrlParts, data: Value, json: Value, dataConverted: Value,
                              jsonConverted: Value, userAgent: Value, cookies: Value,
                              kwargs: map<string, Value>, requestKeys: set<string>)
    requires Truthy(data) || Truthy(json)
    ensures var s := InitBaseSpider(url, VNone, data, json, dataConverted, jsonConverted, userAgent,
                                    map[], cookies, false, 0, kwargs, requestKeys);
      && s.httpMethod == VStr("POST")
      && s.headers == map["User-Agent" := userAgent,
                          "Content-Type" := VStr(if Truthy(jsonConverted) then JsonContentType else FormContentType)]
  {
    var s := InitBaseSpider(url, VNone, data, json, dataConverted, jsonConverted, userAgent,
                            map[], cookies, false, 0, kwargs, requestKeys);
    assert s.headers == InitHeader(VStr("POST"), jsonConverted, userAgent);
  }

  /** network.py:94-111 as written: `_init_header` runs while the dict for
      `self.spider` is still being built, so for a POST spider its
      `self.spider.get('json')` raises AttributeError. */
  function InitBaseSpiderAsWritten(url: UrlParts, httpMethod: Value, data: Value, json: Value,
                                   dataConverted: Value, jsonConverted: Value, userAgent: Value,
                                   headers: map<string, Value>, cookies: Value,
                                   useSession: bool, sessionId: nat,
                                   kwargs: map<string, Value>, requestKeys: set<string>): (r: Result<BaseSpider, AttributeError>)
    ensures r.Err? <==> SpiderMethod(httpMethod, data, json) == VStr("POST")
    ensures r.Err? ==> r.error == AttributeError("spider")
  {
    var m := SpiderMethod(httpMethod, data, json);
    if m == VStr("POST") then Err(AttributeError("spider"))
    else
      Ok(BaseSpider(m, url, dataConverted, jsonConverted,
                    map["User-Agent" := userAgent] + headers, cookies, SpiderRequestKwargs(kwargs, requestKeys),
                    useSession, if useSession then VSession(sessionId) else VNone))
  }

  /** Apart from POST, the code as written builds the intended spider. */
  lemma AsWrittenSpiderAgreesUnlessPost(url: UrlParts, httpMethod: Value, data: Value, json: Value,
                                        dataConverted: Value, jsonConverted: Value, userAgent: Value,
                                        headers: map<string, Value>, cookies: Value,
                                        useSession: bool, sessionId: nat,
                                        kwargs: map<string, Value>, requestKeys: set<string>)
    requires SpiderMethod(httpMethod, data, json) != VStr("POST")
    ensures InitBaseSpiderAsWritten(url, httpMethod, data, json, dataConverted, jsonConverted, userAgent,
                                    headers, cookies, useSession, sessionId, kwargs, requestKeys)
         == Ok(InitBaseSpider(url, httpMethod, data, json, dataConverted, jsonConverted, userAgent,
                              headers, cookies, useSession, sessionId, kwargs, requestKeys))
  {
  }

  /** `BaseSpider(url, data='a=1')`: the method becomes POST and the code as
      written raises, while the intended spider sends a form body. */
  lemma PostSpiderFailsAsWritten(url: UrlParts, userAgent: Value, cookies: Value)
    ensures InitBaseSpiderAsWritten(url, VNone, VStr("a=1"), VNone, VStr("a=1"), VNone, userAgent,
                                    map[], cookies, false, 0, map[], {}).Err?
    ensures var s := InitBaseSpider(url, VNone, VStr("a=1"), VNone, VStr("a=1"), VNone, userAgent,
                                    map[], cookies, false, 0, map[], {});
      s.headers["Content-Type"] == VStr(FormContentType)
  {
    BodySpiderContentType(url, VStr("a=1"), VNone, VStr("a=1"), VNone, userAgent, cookies, map[], {});
  }

  /** The query part of `url`: a single parameter whose key equals its value
      is written raw, anything else goes through `dict_to_body` (`encode`). */
  function ParamString(param: seq<(string, string)>, encode: seq<(string, string)> -> string): string {
    if |param| == 1 && param[0].0 == param[0].1 then param[0].1 else encode(param)
  }

  /** The `url` property, before stripping. */
  function UrlUnstripped(u: UrlParts, encode: seq<(string, string)> -> string): string {
    u.protocol + "://" + u.domain + "/" + Join("/", u.path) + "?" + ParamString(u.param, encode)
  }

  /** The `url` property: `f'{protocol}://{domain}/{path}?{param}'.strip('?')`. */
  function Url(u: UrlParts, encode: seq<(string, string)> -> string): (s: string)
    ensures s == [] || (s[0] != '?' && s[|s| - 1] != '?')
  {
    Strip(UrlUnstripped(u, encode), '?')
  }

  /** The address up to and including the path, `protocol://domain/path`. */
  function Address(u: UrlParts): string {
    u.protocol + "://" + u.domain + "/" + Join("/", u.path)
  }

  /** An empty query leaves no `?`: the URL is just `protocol://domain/path`. */
  lemma UrlWithoutQuery(u: UrlParts, encode: seq<(string, string)> -> string)
    requires ParamString(u.param, encode) == ""
    requires u.protocol == [] || u.protocol[0] != '?'
    requires var a := Address(u); a[|a| - 1] != '?'
    ensures Url(u, encode) == Address(u)
  {
    var a := Address(u);
    assert a[0] != '?' by {
      if u.protocol == [] { assert a[0] == ':'; } else { assert a[0] == u.protocol[0]; }
    }
    assert UrlUnstripped(u, encode) == a + ['?'];
    StripDropsOneTrailing(a, '?');
  }

  /** A non-empty query is kept after a single `?`. */
  lemma UrlWithQuery(u: UrlParts, encode: seq<(string, string)> -> string)
    requires var p := ParamString(u.param, encode); p != "" && p[|p| - 1] != '?'
    requires u.protocol == [] || u.protocol[0] != '?'
    ensures Url(u, encode) == Address(u) + "?" + ParamString(u.param, encode)
  {
    var s := UrlUnstripped(u, encode);
    assert s == Address(u) + "?" + ParamString(u.param, encode);
    assert s[0] != '?' by {
      if u.protocol == [] { assert s[0] == ':'; } else { assert s[0] == u.protocol[0]; }
    }
    StripUntouched(s, '?');
  }

  /** A lone parameter `k=k` is emitted as the bare `k`, never encoded. */
  lemma SelfNamedParamIsRaw(u: UrlParts, encode: seq<(string, string)> -> string, k: string)
    requires u.param == [(k, k)]
    requires k != "" && k[|k| - 1] != '?'
    requires u.protocol == [] || u.protocol[0] != '?'
    ensures Url(u, encode) == Address(u) + "?" + k
  {
    assert u.param[0] == (k, k);
    assert ParamString(u.param, encode) == k;
    UrlWithQuery(u, encode);
  }

  /** The keys `new_request` always sets. */
  const NamedRequestKeys: set<string> :=
    {"url", "method", "data", "json", "headers", "cookies", "priority", "callback", "args", "session"}

  /** The named fields of `new_request` with their defaults
      (network.py:221-230). */
  function NamedFields(s: BaseSpider, url: Value, httpMethod: Value, data: Value, json: Value,
                       headers: Value, cookies: Value, callback: Value, args: Value,
                       priority: Value, useSession: bool): (m: map<string, Value>)
    ensures m.Keys == NamedRequestKeys
    ensures m["url"] == url && m["cookies"] == cookies && m["priority"] == priority
    ensures m["callback"] == callback && m["args"] == args
    ensures m["method"] == (if Truthy(httpMethod) then httpMethod else VStr("GET"))
    ensures m["data"] == (if Truthy(data) then data else VStr(""))
    ensures m["json"] == (if Truthy(json) then json else VDict(map[]))
    ensures m["headers"] == (if Truthy(headers) then headers else VDict(s.headers))
    ensures m["session"] == (if useSession then s.session else VNone)
  {
    map[
      "url" := url,
      "method" := Or(httpMethod, VStr("GET")),
      "data" := Or(data, VStr("")),
      "json" := Or(json, VDict(map[])),
      "headers" := Or(headers, VDict(s.headers)),
      "cookies" := cookies,
      "priority" := priority,
      "callback" := callback,
      "args" := args,
      "session" := if useSession then s.session else VNone]
  }

  /** network.py:219-232: the keyword arguments `new_request` hands to
      `Request`: `self.request_kwargs`, overridden by the named fields,
      overridden by the explicit `**kwargs`. */
  function NewRequestKwargs(s: BaseSpider, named: map<string, Value>, kwargs: map<string, Value>): (r: map<string, Value>)
  {
    s.requestKwargs + named + kwargs
  }

  /** Precedence in `new_request`'s keyword arguments: an explicit kwarg
      wins over a named field, which wins over the spider's
      `request_kwargs`; no other key appears. */
  lemma NewRequestKwargsPrecedence(s: BaseSpider, named: map<string, Value>, kwargs: map<string, Value>)
    ensures var r := NewRequestKwargs(s, named, kwargs);
      && (forall k :: k in r <==> k in s.requestKwargs || k in named || k in kwargs)
      && (forall k :: k in kwargs ==> r[k] == kwargs[k])
      && (forall k :: k in named && k !in kwargs ==> r[k] == named[k])
      && (forall k :: k in s.requestKwargs && k !in named && k !in kwargs ==> r[k] == s.requestKwargs[k])
  {
  }

  /** What `Request(**request_kwargs)` collects in `**kwargs`: every
      entry but the parameters bound by name. */
  function Unbound(rk: map<string, Value>): map<string, Value> {
    map k | k in rk && k != "url" && k != "method" && k != "args" :: rk[k]
  }

  /** `new_request(...)`: `Request(**request_kwargs)`, which binds `url`,
      `httpMethod` and `args` by name and takes the rest as `**kwargs`. */
  function NewRequest(s: BaseSpider, url: Value, httpMethod: Value, data: Value, json: Value,
                      headers: Value, cookies: Value, callback: Value, args: Value,
                      priority: Value, useSession: bool,
                      kwargs: map<string, Value>, requestKeys: set<string>): Result<RequestFields, InitError>
  {
    var named := NamedFields(s, url, httpMethod, data, json, headers, cookies, callback, args, priority, useSession);
    var rk := NewRequestKwargs(s, named, kwargs);
    InitRequest(rk["url"], rk["method"], rk["args"], Unbound(rk), requestKeys)
  }

  /** The request `new_request` builds fails exactly when the method in
      force (an explicit `method` kwarg, else the argument, else GET) is
      not allowed; its url and args are the explicit kwarg when given and
      the named argument otherwise. */
  lemma NewRequestBoundFields(s: BaseSpider, url: Value, httpMethod: Value, data: Value, json: Value,
                                   headers: Value, cookies: Value, callback: Value, args: Value,
                                   priority: Value, useSession: bool,
                                   kwargs: map<string, Value>, requestKeys: set<string>)
    ensures var r := NewRequest(s, url, httpMethod, data, json, headers, cookies, callback, args, priority,
                                useSession, kwargs, requestKeys);
      var m := if "method" in kwargs then kwargs["method"] else Or(httpMethod, VStr("GET"));
      && (r.Ok? <==> m.VStr? && NormaliseMethod(m.s) in AllowedMethods)
      && (r.Ok? ==> r.value.url == (if "url" in kwargs then kwargs["url"] else url))
      && (r.Ok? ==> r.value.args == (var a := if "args" in kwargs then kwargs["args"] else args;
                                     if Truthy(a) then a else VTuple([])))
  {
    var named := NamedFields(s, url, httpMethod, data, json, headers, cookies, callback, args, priority, useSession);
    var rk := NewRequestKwargs(s, named, kwargs);
    assert rk["method"] == if "method" in kwargs then kwargs["method"] else Or(httpMethod, VStr("GET"));
  }

  /** The callback and session of the request `new_request` builds are the
      explicit kwarg when given and the named argument otherwise, and only
      allowed keys reach its `requests_kwargs`. */
  lemma NewRequestUnboundFields(s: BaseSpider, url: Value, httpMethod: Value, data: Value, json: Value,
                                   headers: Value, cookies: Value, callback: Value, args: Value,
                                   priority: Value, useSession: bool,
                                   kwargs: map<string, Value>, requestKeys: set<string>)
    ensures var r := NewRequest(s, url, httpMethod, data, json, headers, cookies, callback, args, priority,
                                useSession, kwargs, requestKeys);
      && (r.Ok? ==> r.value.callback == (if "callback" in kwargs then kwargs["callback"] else callback))
      && (r.Ok? ==> r.value.session == (if "session" in kwargs then kwargs["session"]
                                        else if useSession then s.session else VNone))
      && (r.Ok? ==> r.value.requestKwargs.Keys <= requestKeys)
  {
    var named := NamedFields(s, url, httpMethod, data, json, headers, cookies, callback, args, priority, useSession);
    var rk := NewRequestKwargs(s, named, kwargs);
    var u := Unbound(rk);
    assert Get(u, "callback") == rk["callback"];
    assert Get(u, "session") == rk["session"];
  }

  /** The `url`, `method` and `args` that `new_request` binds by name when
      no method and no extra kwargs are given. */
  lemma DefaultBoundArguments(s: BaseSpider, url: Value, headers: Value, cookies: Value,
                              callback: Value, args: Value, useSession: bool)
    ensures var rk := NewRequestKwargs(s, NamedFields(s, url, VNone, VNone, VNone, headers, cookies, callback, args,
                                                      VNone, useSession), map[]);
            rk["method"] == VStr("GET") && rk["url"] == url && rk["args"] == args
  {
    var named := NamedFields(s, url, VNone, VNone, VNone, headers, cookies, callback, args, VNone, useSession);
    var none: map<string, Value> := map[];
    assert "method" !in none && "url" !in none && "args" !in none;
  }

  /** Without a body given, `new_request` passes on falsy `data` and
      `json` (its defaults `''` and `{}`). */
  lemma DefaultRequestHasNoBody(s: BaseSpider, url: Value, headers: Value, cookies: Value,
                                callback: Value, args: Value, useSession: bool)
    ensures var rk := NewRequestKwargs(s, NamedFields(s, url, VNone, VNone, VNone, headers, cookies, callback, args,
                                                      VNone, useSession), map[]);
            !Truthy(Get(Unbound(rk), "data")) && !Truthy(Get(Unbound(rk), "json"))
  {
    var named := NamedFields(s, url, VNone, VNone, VNone, headers, cookies, callback, args, VNone, useSession);
    var none: map<string, Value> := map[];
    var kw := Unbound(NewRequestKwargs(s, named, none));
    assert "data" !in none && "json" !in none;
    assert kw["data"] == VStr("") && kw["json"] == VDict(map[]);
  }

  /** The other keyword arguments `new_request` passes on when no priority
      and no extra kwargs are given: priority `None`, the given callback and
      the spider's `max_retry`. */
  lemma DefaultRequestKwargs(s: BaseSpider, url: Value, headers: Value, cookies: Value,
                             callback: Value, args: Value, useSession: bool)
    ensures var rk := NewRequestKwargs(s, NamedFields(s, url, VNone, VNone, VNone, headers, cookies, callback, args,
                                                      VNone, useSession), map[]);
            var kw := Unbound(rk);
            && Get(kw, "priority") == VNone && Get(kw, "callback") == callback
            && Get(kw, "max_retry") == Get(s.requestKwargs, "max_retry")
  {
    var named := NamedFields(s, url, VNone, VNone, VNone, headers, cookies, callback, args, VNone, useSession);
    var none: map<string, Value> := map[];
    var kw := Unbound(NewRequestKwargs(s, named, none));
    assert "max_retry" !in NamedRequestKeys;
    assert "priority" !in none && "callback" !in none && "max_retry" !in none;
    assert kw["priority"] == VNone && kw["callback"] == callback;
  }

  /** With no method, no body and no extra kwargs, `new_request` builds a GET
      request at priority 0. */
  lemma NewRequestDefaults(s: BaseSpider, url: Value, headers: Value, cookies: Value,
                           callback: Value, args: Value, useSession: bool, requestKeys: set<string>)
    ensures var r := NewRequest(s, url, VNone, VNone, VNone, headers, cookies, callback, args, VNone,
                                useSession, map[], requestKeys);
            r.Ok? && r.value.httpMethod == "GET" && r.value.priority == VInt(0) && r.value.url == url
            && r.value.callback == callback
            && r.value.maxRetry == RetryBudget(Get(s.requestKwargs, "max_retry"))
  {
    DefaultBoundArguments(s, url, headers, cookies, callback, args, useSession);
    DefaultRequestHasNoBody(s, url, headers, cookies, callback, args, useSession);
    DefaultRequestKwargs(s, url, headers, cookies, callback, args, useSession);
    assert Upper("GET") == "GET";
  }

  /** The keyword arguments `new_request` builds from an explicit method
      and a body: the method is bound by name (`'GET'` when empty) and the
      body is passed on. */
  lemma BodyRequestKwargs(s: BaseSpider, url: Value, httpMethod: string, data: Value,
                          headers: Value, cookies: Value, callback: Value, args: Value,
                          priority: Value, useSession: bool)
    requires Truthy(data)
    ensures var rk := NewRequestKwargs(s, NamedFields(s, url, VStr(httpMethod), data, VNone, headers, cookies,
                                                      callback, args, priority, useSession), map[]);
            && rk["method"] == VStr(if httpMethod == "" then "GET" else httpMethod)
            && Get(Unbound(rk), "data") == data
  {
    var named := NamedFields(s, url, VStr(httpMethod), data, VNone, headers, cookies, callback, args, priority, useSession);
    var none: map<string, Value> := map[];
    assert "data" !in none && "method" !in none;
  }

  /** A truthy body turns any valid method into POST, provided `data` is a
      request key. */
  lemma NewRequestWithDataIsPost(s: BaseSpider, url: Value, httpMethod: string, data: Value,
                                 headers: Value, cookies: Value, callback: Value, args: Value,
                                 priority: Value, useSession: bool, requestKeys: set<string>)
    requires Truthy(data) && "data" in requestKeys
    requires NormaliseMethod(httpMethod) in AllowedMethods
    ensures var r := NewRequest(s, url, VStr(httpMethod), data, VNone, headers, cookies, callback, args,
                                priority, useSession, map[], requestKeys);
            r.Ok? && r.value.httpMethod == "POST" && Get(r.value.requestKwargs, "data") == data
  {
    BodyRequestKwargs(s, url, httpMethod, data, headers, cookies, callback, args, priority, useSession);
    var named := NamedFields(s, url, VStr(httpMethod), data, VNone, headers, cookies, callback, args, priority, useSession);
    var rk := NewRequestKwargs(s, named, map[]);
    var kw := Unbound(rk);
    assert Upper("GET") == "GET";
    var r := InitRequest(rk["url"], rk["method"], rk["args"], kw, requestKeys);
    assert r.Ok?;
    assert "data" in r.value.requestKwargs;
  }

  // ---------------------------------------------------------------------
  // Downloader
  // ---------------------------------------------------------------------

  /** What is handed to and returned by an extension: a request, or any
      other Python value. */
  datatype Target = Req(r: Request) | Other(v: Value)

  /** A `Request` object is always truthy. */
  predicate TruthyTarget(t: Target) {
    t.Req? || Truthy(t.v)
  }

  /** An extension as registered: a class, or an instance. */
  datatype Callable = ClassObject(cid: nat) | Instance(cid: nat)

  /** `if type(extension).__name__ == 'type': extension = extension()`. */
  function Instantiate(c: Callable): (r: Callable)
    ensures r.Instance? && r.cid == c.cid
    ensures c.Instance? ==> r == c
  {
    Instance(c.cid)
  }

  /** One `self._extensions` dict. */
  datatype ExtEntry = ExtEntry(extension: Callable, args: seq<Value>, kwargs: map<string, Value>, count: nat)

  /** Calling an extension object with the current value and its arguments. */
  type ExtCall = (Callable, Target, seq<Value>, map<string, Value>) -> Target

  datatype ExtInvocation = ExtInvocation(extension: Callable, input: Target, output: Target)

  datatype ChainResult = ChainResult(target: Target, entries: seq<ExtEntry>, log: seq<ExtInvocation>)

  /** network.py:287-300: the extensions run in registration order on the
      current value while it is truthy; the first falsy value skips the rest,
      and only called extensions have their count bumped. */
  function DownloaderChain(entries: seq<ExtEntry>, t: Target, call: ExtCall): (r: ChainResult)
    ensures |r.entries| == |entries| && |r.log| <= |entries|
    decreases |entries|
  {
    if entries == [] || !TruthyTarget(t) then ChainResult(t, entries, [])
    else
      var e := entries[0];
      var out := call(e.extension, t, e.args, e.kwargs);
      var rest := DownloaderChain(entries[1..], out, call);
      ChainResult(rest.target, [e.(count := e.count + 1)] + rest.entries, [ExtInvocation(e.extension, t, out)] + rest.log)
  }

  /** One step of the chain: a truthy value is handed to the first
      extension, a falsy one makes every later step a no-op. */
  lemma ChainStep(entries: seq<ExtEntry>, t: Target, call: ExtCall)
    requires entries != []
    ensures var e := entries[0];
            var next := if TruthyTarget(t) then call(e.extension, t, e.args, e.kwargs) else t;
            var first := if TruthyTarget(t) then e.(count := e.count + 1) else e;
            var rest := DownloaderChain(entries[1..], next, call);
            DownloaderChain(entries, t, call).target == rest.target
            && DownloaderChain(entries, t, call).entries == [first] + rest.entries
  {
    if !TruthyTarget(t) {
      assert DownloaderChain(entries[1..], t, call).entries == entries[1..];
      assert entries == [entries[0]] + entries[1..];
    }
  }

  /** `ChainStep` at position `i` of a list of extension entries. */
  lemma ChainAdvance(entries: seq<ExtEntry>, i: nat, t: Target, call: ExtCall)
    requires i < |entries|
    ensures var e := entries[i];
            var next := if TruthyTarget(t) then call(e.extension, t, e.args, e.kwargs) else t;
            var first := if TruthyTarget(t) then e.(count := e.count + 1) else e;
            var rest := DownloaderChain(entries[i + 1..], next, call);
            DownloaderChain(entries[i..], t, call).target == rest.target
            && DownloaderChain(entries[i..], t, call).entries == [first] + rest.entries
  {
    ChainStep(entries[i..], t, call);
    assert entries[i..][1..] == entries[i + 1..];
  }

  /** After the first `i` extensions of `e0` have been applied: `es` holds
      their updated entries followed by the untouched rest, and running the
      rest of the chain from `t` finishes the whole chain `whole`. */
  predicate ChainProgress(e0: seq<ExtEntry>, es: seq<ExtEntry>, i: nat, t: Target, call: ExtCall, whole: ChainResult) {
    && i <= |es| == |e0|
    && es[i..] == e0[i..]
    && whole.target == DownloaderChain(e0[i..], t, call).target
    && whole.entries == es[..i] + DownloaderChain(e0[i..], t, call).entries
  }

  /** Applying extension `i` keeps `ChainProgress`. */
  lemma ChainProgressStep(e0: seq<ExtEntry>, es: seq<ExtEntry>, i: nat, t: Target, call: ExtCall, whole: ChainResult)
    requires ChainProgress(e0, es, i, t, call, whole) && i < |es|
    ensures var e := es[i];
            var next := if TruthyTarget(t) then call(e.extension, t, e.args, e.kwargs) else t;
            var updated := if TruthyTarget(t) then e.(count := e.count + 1) else e;
            ChainProgress(e0, es[i := updated], i + 1, next, call, whole)
  {
    var e := es[i];
    assert e == e0[i];
    var updated := if TruthyTarget(t) then e.(count := e.count + 1) else e;
    ChainAdvance(e0, i, t, call);
    assert es[i := updated][..i + 1] == es[..i] + [updated];
    assert es[i := updated][i + 1..] == es[i + 1..];
  }

  /** Extension `i` of the loop in `start`: called on a truthy value, its
      count bumped; skipped on a falsy one. */
  method ChainOne(ghost e0: seq<ExtEntry>, es: seq<ExtEntry>, i: nat, t: Target, call: ExtCall,
                  ghost whole: ChainResult) returns (es': seq<ExtEntry>, t': Target)
    requires ChainProgress(e0, es, i, t, call, whole) && i < |es|
    ensures ChainProgress(e0, es', i + 1, t', call, whole)
  {
    var entry := es[i];
    ChainProgressStep(e0, es, i, t, call, whole);
    if TruthyTarget(t) {
      es', t' := es[i := entry.(count := entry.count + 1)], call(entry.extension, t, entry.args, entry.kwargs);
    } else {
      es', t' := es, t;
      assert es[i := entry] == es;
    }
  }

  /** At the end of the loop, the values held are the whole chain's. */
  lemma ChainDone(e0: seq<ExtEntry>, es: seq<ExtEntry>, t: Target, call: ExtCall, whole: ChainResult)
    requires ChainProgress(e0, es, |es|, t, call, whole)
    ensures whole.target == t && whole.entries == es
  {
    assert e0[|es|..] == [];
    assert es[..|es|] == es;
  }

  /** Exactly the extensions that were called have their count bumped, by
      one; when the chain stops early its value is falsy, and a truthy
      request always reaches the first extension. */
  lemma {:induction false} ChainCountsAndStops(entries: seq<ExtEntry>, t: Target, call: ExtCall)
    ensures var r := DownloaderChain(entries, t, call);
      && (forall i :: 0 <= i < |entries| ==>
            r.entries[i] == entries[i].(count := entries[i].count + (if i < |r.log| then 1 else 0)))
      && (|r.log| < |entries| ==> !TruthyTarget(r.target))
      && (TruthyTarget(t) && entries != [] ==> r.log != [])
    decreases |entries|
  {
    if entries != [] && TruthyTarget(t) {
      var e := entries[0];
      var out := call(e.extension, t, e.args, e.kwargs);
      ChainCountsAndStops(entries[1..], out, call);
      var rest := DownloaderChain(entries[1..], out, call);
      var r := DownloaderChain(entries, t, call);
      forall i | 0 <= i < |entries|
        ensures r.entries[i] == entries[i].(count := entries[i].count + (if i < |r.log| then 1 else 0))
      {
        if i > 0 {
          assert r.entries[i] == rest.entries[i - 1];
          assert entries[i] == entries[1..][i - 1];
        }
      }
    }
  }

  /** The extensions are called in registration order: the `i`-th call is
      to the `i`-th extension, on a truthy value, with its own arguments. */
  lemma {:induction false} ChainCallsInOrder(entries: seq<ExtEntry>, t: Target, call: ExtCall)
    ensures var r := DownloaderChain(entries, t, call);
      forall i :: 0 <= i < |r.log| ==>
        && r.log[i].extension == entries[i].extension && TruthyTarget(r.log[i].input)
        && r.log[i].output == call(entries[i].extension, r.log[i].input, entries[i].args, entries[i].kwargs)
    decreases |entries|
  {
    if entries != [] && TruthyTarget(t) {
      var e := entries[0];
      var out := call(e.extension, t, e.args, e.kwargs);
      ChainCallsInOrder(entries[1..], out, call);
      var rest := DownloaderChain(entries[1..], out, call);
      var r := DownloaderChain(entries, t, call);
      assert forall i :: 1 <= i < |r.log| ==> r.log[i] == rest.log[i - 1] && entries[i] == entries[1..][i - 1];
    }
  }

  /** Each extension gets the value the previous one returned, the first
      one gets the popped request, and the chain's value is the last one
      returned. */
  lemma {:induction false} ChainThreadsValue(entries: seq<ExtEntry>, t: Target, call: ExtCall)
    ensures var r := DownloaderChain(entries, t, call);
      && (r.log != [] ==> r.log[0].input == t)
      && (forall i :: 0 <= i < |r.log| - 1 ==> r.log[i + 1].input == r.log[i].output)
      && r.target == (if r.log == [] then t else r.log[|r.log| - 1].output)
    decreases |entries|
  {
    if entries != [] && TruthyTarget(t) {
      var e := entries[0];
      var out := call(e.extension, t, e.args, e.kwargs);
      ChainThreadsValue(entries[1..], out, call);
      var rest := DownloaderChain(entries[1..], out, call);
      var r := DownloaderChain(entries, t, call);
      assert forall i :: 1 <= i < |r.log| ==> r.log[i] == rest.log[i - 1];
    }
  }

  /** network.py:302-304: what may come out of the chain. */
  predicate ChainValueAllowed(t: Target) {
    t.Req? || !TruthyTarget(t)
  }

  /** What is started for a chain value: the request it is, or nothing. */
  function Started(t: Target): (r: seq<Request>)
    ensures t.Req? ==> r == [t.r]
    ensures !t.Req? <==> r == []
  {
    if t.Req? then [t.r] else []
  }

  /** What dispatching popped requests leaves behind: the requests appended
      to `running_thread`, the extension dicts, and whether the assertion on
      the chain's value failed (which ends `start`). */
  datatype DispatchResult = DispatchResult(survivors: seq<Request>, entries: seq<ExtEntry>, failed: bool)

  /** The body of the dispatch loop (network.py:284-311) over requests in the
      order they were popped. */
  function Dispatch(popped: seq<Request>, entries: seq<ExtEntry>, call: ExtCall): (d: DispatchResult)
    ensures |d.entries| == |entries|
    ensures |d.survivors| <= |popped|
    decreases |popped|
  {
    if popped == [] then DispatchResult([], entries, false)
    else
      var c := DownloaderChain(entries, Req(popped[0]), call);
      if !ChainValueAllowed(c.target) then DispatchResult([], c.entries, true)
      else
        var rest := Dispatch(popped[1..], c.entries, call);
        DispatchResult(Started(c.target) + rest.survivors, rest.entries, rest.failed)
  }

  /** Dispatching one more request extends the previous dispatch by one step. */
  lemma {:induction false} DispatchSnoc(popped: seq<Request>, q: Request, entries: seq<ExtEntry>, call: ExtCall)
    requires !Dispatch(popped, entries, call).failed
    ensures var d := Dispatch(popped, entries, call);
            var c := DownloaderChain(d.entries, Req(q), call);
            Dispatch(popped + [q], entries, call) ==
              if !ChainValueAllowed(c.target) then DispatchResult(d.survivors, c.entries, true)
              else DispatchResult(d.survivors + Started(c.target), c.entries, false)
    decreases |popped|
  {
    if popped == [] {
      assert [q][1..] == [];
    } else {
      var c0 := DownloaderChain(entries, Req(popped[0]), call);
      assert (popped + [q])[0] == popped[0];
      assert (popped + [q])[1..] == popped[1..] + [q];
      DispatchSnoc(popped[1..], q, c0.entries, call);
    }
  }

  /** With no extensions registered every popped request is started, in pop
      order, and nothing fails. */
  lemma {:induction false} DispatchWithoutExtensions(popped: seq<Request>, call: ExtCall)
    ensures Dispatch(popped, [], call) == DispatchResult(popped, [], false)
    decreases |popped|
  {
    if popped != [] {
      DispatchWithoutExtensions(popped[1..], call);
    }
  }

  class Downloader {
    /** `thread_pool`: the queued requests; which one `pop` returns is left to the queue. */
    var pool: multiset<Request>
    var maxThread: Value
    /** `running_thread`: started requests, in start order. */
    var running: seq<Request>
    var downloadNumber: int
    var extensions: seq<ExtEntry>
    var waitTime: Value
    /** Every request pushed so far, in push order. */
    ghost var pushed: seq<Request>

    constructor (maxThread: Value, waitTime: Value)
      ensures this.maxThread == maxThread && this.waitTime == waitTime
      ensures pool == multiset{} && running == [] && downloadNumber == 0 && extensions == []
      ensures pushed == []
    {
      pushed := [];
      this.maxThread := maxThread;
      this.waitTime := waitTime;
      pool := multiset{};
      running := [];
      downloadNumber := 0;
      extensions := [];
    }

    /** `push`: only a `Request` is queued; anything else fails the assertion. */
    method Push(t: Target) returns (ok: bool)
      modifies this`pool, this`pushed
      ensures ok == t.Req?
      ensures pool == if ok then old(pool) + multiset{t.r} else old(pool)
      ensures pushed == if ok then old(pushed) + [t.r] else old(pushed)
    {
      ok := t.Req?;
      if ok {
        pool := pool + multiset{t.r};
        pushed := pushed + [t.r];
      }
    }

    /** `add_extension`: a class is instantiated; the entry starts with count 0. */
    method AddExtension(extension: Callable, args: seq<Value>, kwargs: map<string, Value>)
      modifies this`extensions
      ensures extensions == old(extensions) + [ExtEntry(Instantiate(extension), args, kwargs, 0)]
    {
      var e := extension;
      if e.ClassObject? {
        e := Instance(e.cid);
      }
      extensions := extensions + [ExtEntry(e, args, kwargs, 0)];
    }

    /** `_finish`: three looks at the queue; the last one decides. */
    method Finish() returns (finish: bool)
      ensures finish <==> pool == multiset{}
    {
      finish := false;
      for i := 0 to 3
        invariant i > 0 ==> (finish <==> pool == multiset{})
      {
        if pool == multiset{} {
          finish := true;
        } else {
          finish := false;
        }
      }
    }

    /** The extension loop of `start` for one popped request. */
    method ApplyExtensions(request: Request, call: ExtCall) returns (t: Target)
      modifies this`extensions
      ensures var c := DownloaderChain(old(extensions), Req(request), call);
              t == c.target && extensions == c.entries
    {
      t := Req(request);
      var es := extensions;
      ghost var e0 := es;
      ghost var whole := DownloaderChain(e0, t, call);
      var i := 0;
      while i < |es|
        invariant ChainProgress(e0, es, i, t, call, whole)
      {
        es, t := ChainOne(e0, es, i, t, call, whole);
        i := i + 1;
      }
      ChainDone(e0, es, t, call, whole);
      extensions := es;
    }

    /** The body of the dispatch loop for one popped request: the extension
        chain, the assertion on its value, and starting what survives. */
    method StartOne(request: Request, call: ExtCall) returns (allowed: bool)
      modifies this`running, this`downloadNumber, this`extensions
      ensures var c := DownloaderChain(old(extensions), Req(request), call);
        && allowed == ChainValueAllowed(c.target)
        && extensions == c.entries
        && (allowed ==> running == old(running) + Started(c.target)
                        && downloadNumber == old(downloadNumber) + |Started(c.target)|)
        && (!allowed ==> running == old(running) && downloadNumber == old(downloadNumber))
    {
      var t := ApplyExtensions(request, call);
      allowed := ChainValueAllowed(t);
      if allowed && t.Req? {
        running := running + [t.r];
        downloadNumber := downloadNumber + 1;
      }
    }

    /** The state after dispatching `popped` from extension list `e0`,
        `running_thread` `r0` and `download_number` `n0`. */
    ghost predicate Dispatched(e0: seq<ExtEntry>, r0: seq<Request>, n0: int, popped: seq<Request>, call: ExtCall)
      reads this
    {
      var d := Dispatch(popped, e0, call);
      extensions == d.entries && running == r0 + d.survivors && downloadNumber == n0 + |d.survivors|
    }

    /** One round of the `start` loop: pop a request and dispatch it. */
    method PopAndStart(call: ExtCall, ghost e0: seq<ExtEntry>, ghost r0: seq<Request>, ghost n0: int,
                       ghost popped: seq<Request>) returns (allowed: bool, request: Request)
      requires pool != multiset{}
      requires Dispatched(e0, r0, n0, popped, call) && !Dispatch(popped, e0, call).failed
      modifies this`pool, this`running, this`downloadNumber, this`extensions
      ensures request in old(pool) && pool == old(pool) - multiset{request}
      ensures Dispatched(e0, r0, n0, popped + [request], call)
      ensures allowed == !Dispatch(popped + [request], e0, call).failed
    {
      request :| request in pool;
      pool := pool - multiset{request};
      ghost var d := Dispatch(popped, e0, call);
      ghost var c := DownloaderChain(d.entries, Req(request), call);
      allowed := StartOne(request, call);
      assert extensions == c.entries;
      DispatchSnoc(popped, request, e0, call);
      ghost var d' := Dispatch(popped + [request], e0, call);
      if allowed {
        assert d' == DispatchResult(d.survivors + Started(c.target), c.entries, false);
        assert running == r0 + d'.survivors;
      } else {
        assert d' == DispatchResult(d.survivors, c.entries, true);
      }
    }

    /** `_join_thread`: drains `running_thread` in FIFO order. */
    method JoinThread() returns (joined: seq<Request>)
      modifies this`running
      ensures joined == old(running) && running == []
    {
      joined := [];
      while running != []
        invariant old(running) == joined + running
        decreases |running|
      {
        var request := running[0];
        running := running[1..];
        joined := joined + [request];
      }
    }

    /** The dispatch loop of `start`: pop until the queue is empty or the
        assertion on an extension's value fails. `popped` is the order the
        queue gave the requests out in. */
    method DispatchAll(call: ExtCall) returns (ok: bool, ghost popped: seq<Request>)
      modifies this`pool, this`running, this`downloadNumber, this`extensions
      ensures Dispatched(old(extensions), old(running), old(downloadNumber), popped, call)
      ensures ok == !Dispatch(popped, old(extensions), call).failed
      ensures multiset(popped) + pool == old(pool)
      ensures ok ==> pool == multiset{}
    {
      ghost var e0, r0, n0, p0 := extensions, running, downloadNumber, pool;
      popped := [];
      ok := true;
      var fin := Finish();
      while !fin && ok
        invariant ok ==> (fin <==> pool == multiset{})
        invariant multiset(popped) + pool == p0
        invariant Dispatched(e0, r0, n0, popped, call) && ok == !Dispatch(popped, e0, call).failed
        decreases |pool|
      {
        var request;
        ok, request := PopAndStart(call, e0, r0, n0, popped);
        popped := popped + [request];
        if ok {
          fin := Finish();
        }
      }
    }

    /** `start`, sequentialised: dispatch the whole queue through the
        extension chain, starting what survives (append to
        `running_thread`, bump `download_number`), then join. */
    method Start(call: ExtCall) returns (ok: bool, joined: seq<Request>, ghost popped: seq<Request>)
      modifies this`pool, this`running, this`downloadNumber, this`extensions
      ensures var d := Dispatch(popped, old(extensions), call);
        && ok == !d.failed
        && extensions == d.entries
        && downloadNumber == old(downloadNumber) + |d.survivors|
        && multiset(popped) + pool == old(pool)
        && (ok ==> pool == multiset{} && running == [] && joined == old(running) + d.survivors)
        && (!ok ==> running == old(running) + d.survivors && joined == [])
    {
      ok, popped := DispatchAll(call);
      if ok && running != [] {
        joined := JoinThread();
      } else {
        joined := [];
      }
    }
  }
}
