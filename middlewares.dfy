/** The middleware layer: the default hooks of `BaseMiddleware` and the
    Redis-backed `RequestFilter` middleware, which answers `'drop'` for a
    request it has seen and counts its drops. */
module Middlewares {
  import opened PyValues
  import opened Network
  import opened Dedup

  /** A hook call, with the arguments the hooks look at. */
  datatype Hook =
    | ProcessRequest(request: Request)
    | ProcessResponse(response: Value)
    | ProcessRetry(request: Request, response: Value)
    | ProcessError(request: Request, exception: Value)
    | ProcessFailed(request: Request, response: Value)
    | CloseMiddleware

  /** What a hook does: return a value, or raise an exception. */
  datatype HookOutcome = Returned(value: Target) | Raised(exception: Value)

  /** middlewares.py:8-25: `process_retry` hands the request back,
      `process_error` re-raises, every other hook returns `None`. */
  function BaseHook(h: Hook): (r: HookOutcome)
    ensures h.ProcessRetry? <==> r.Returned? && r.value.Req?
    ensures h.ProcessRetry? ==> r == Returned(Req(h.request))
    ensures h.ProcessError? <==> r.Raised?
    ensures h.ProcessError? ==> r.exception == h.exception
    ensures !h.ProcessRetry? && !h.ProcessError? ==> r == Returned(Other(VNone))
  {
    match h
    case ProcessRetry(request, _) => Returned(Req(request))
    case ProcessError(_, exception) => Raised(exception)
    case _ => Returned(Other(VNone))
  }

  /** The value `process_request` returns for a dropped request. */
  const Drop: Target := Other(VStr("drop"))

  /** How many of the outcomes are drops. */
  function CountDrops(outcomes: seq<Target>): (n: nat)
    ensures n <= |outcomes|
  {
    if outcomes == [] then 0
    else CountDrops(outcomes[..|outcomes| - 1]) + (if outcomes[|outcomes| - 1] == Drop then 1 else 0)
  }

  /** The middleware `RequestFilter`; `redis_db` is `store`. */
  class RequestFilter {
    var store: SetStore
    var redisKwargs: map<string, Value>
    var setKey: string
    /** Seconds; 0 stands for `None`. */
    var timeout: int
    var priority: Value
    var number: int
    /** What `process_request` has returned so far. */
    ghost var outcomes: seq<Target>

    /** `number` is the count of drops so far. */
    ghost predicate Valid()
      reads this, store
    {
      store.Valid() && number == CountDrops(outcomes)
    }

    /** `RequestFilter.__init__`. */
    constructor (store: SetStore, setKey: string, timeout: int, priority: Value, kwargs: map<string, Value>)
      requires store.Valid()
      ensures Valid()
      ensures this.store == store && this.setKey == SetKeyOrDefault(setKey)
      ensures this.timeout == timeout && this.priority == priority && number == 0 && outcomes == []
      ensures redisKwargs == KeepKeys(kwargs, RedisKeys)
    {
      this.store := store;
      redisKwargs := KeepKeys(kwargs, RedisKeys);
      this.setKey := SetKeyOrDefault(setKey);
      this.timeout := timeout;
      this.priority := priority;
      number := 0;
      outcomes := [];
    }

    /** `RequestFilter.process_request`: a request of another priority
        passes with nothing touched; otherwise a new fingerprint is added and
        the request passes, a known one gives `'drop'` and one more drop. */
    method ProcessRequest(request: Request, canonicalize: Value -> string, md5: seq<Value> -> string)
      returns (t: Target)
      requires Valid()
      modifies this`number, this`outcomes, store
      ensures Valid()
      ensures outcomes == old(outcomes) + [t]
      ensures priority != request.priority ==> t == Req(request) && number == old(number) && unchanged(store)
      ensures priority == request.priority ==>
        var fp := md5(FingerprintArgs(canonicalize(request.url), request.requestKwargs));
        && FilterStep(old(store.sets), old(store.expiries), store.sets, store.expiries, setKey, timeout, fp,
                      t == Req(request))
        && (t != Req(request) ==> t == Drop)
        && number == old(number) + (if t == Drop then 1 else 0)
    {
      if priority != request.priority {
        t := Req(request);
      } else {
        var fp := Fingerprint(request, canonicalize, md5);
        var added := AddFingerprint(store, setKey, timeout, fp);
        if !added {
          number := number + 1;
          t := Drop;
        } else {
          t := Req(request);
        }
      }
      outcomes := outcomes + [t];
      assert outcomes[..|outcomes| - 1] == old(outcomes);
    }

    /** `RequestFilter.close_middleware`: reports the drop count and
        changes nothing. */
    method Close() returns (reported: int)
      requires Valid()
      ensures reported == number == CountDrops(outcomes)
    {
      reported := number;
    }

    /** A hook call on the filter: `process_request` and
        `close_middleware` are its own, the rest are inherited. */
    method Handle(h: Hook, canonicalize: Value -> string, md5: seq<Value> -> string) returns (r: HookOutcome)
      requires Valid()
      modifies this`number, this`outcomes, store
      ensures Valid()
      ensures !h.ProcessRequest? ==> r == (if h.CloseMiddleware? then Returned(Other(VNone)) else BaseHook(h))
                                     && number == old(number) && outcomes == old(outcomes) && unchanged(store)
      ensures h.ProcessRequest? ==> r.Returned? && outcomes == old(outcomes) + [r.value]
      ensures h.ProcessRequest? && priority != h.request.priority ==>
        r == Returned(Req(h.request)) && number == old(number) && unchanged(store)
      ensures h.ProcessRequest? && priority == h.request.priority ==>
        var fp := md5(FingerprintArgs(canonicalize(h.request.url), h.request.requestKwargs));
        && FilterStep(old(store.sets), old(store.expiries), store.sets, store.expiries, setKey, timeout, fp,
                      r == Returned(Req(h.request)))
        && (r != Returned(Req(h.request)) ==> r == Returned(Drop))
        && number == old(number) + (if r == Returned(Drop) then 1 else 0)
    {
      match h
      case ProcessRequest(request) =>
        var t := ProcessRequest(request, canonicalize, md5);
        r := Returned(t);
      case CloseMiddleware =>
        var _ := Close();
        r := Returned(Other(VNone));
      case _ =>
        r := BaseHook(h);
    }
  }
}
