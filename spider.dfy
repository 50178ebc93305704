/** The `Spider`: a `BaseSpider` whose construction copies the class's
    custom settings onto the shared settings module and creates a
    `Downloader`, and whose `run` queues every request `start_requests`
    yields (giving a missing callback the spider's `parse`) and then starts
    the downloader. */
module Spider {
  import opened PyValues
  import opened Network

  /** The `settings` module: its attributes by name. */
  class Settings {
    var attrs: map<string, Value>

    constructor (attrs: map<string, Value>)
      ensures this.attrs == attrs
    {
      this.attrs := attrs;
    }
  }

  /** `self.downloader`: the `Downloader` class itself, or an instance. */
  datatype DownloaderRef = DownloaderClass | DownloaderObj(d: Downloader)

  /** Why `run` stops: a yielded value that is not a `Request` (its
      position), or the downloader's assertion on an extension's result. */
  datatype RunError = NotARequest(index: nat) | ExtensionResult

  /** The position of the first yielded value that is not a `Request`, or
      the length when there is none. */
  function FirstNonRequest(ts: seq<Target>): (k: nat)
    ensures k <= |ts|
    ensures forall i :: 0 <= i < k ==> ts[i].Req?
    ensures k < |ts| ==> !ts[k].Req?
    decreases |ts|
  {
    if ts == [] || !ts[0].Req? then 0 else 1 + FirstNonRequest(ts[1..])
  }

  /** The requests among `ts`, in order. */
  function Requests(ts: seq<Target>): (rs: seq<Request>)
    ensures |rs| <= |ts|
    decreases |ts|
  {
    if ts == [] then []
    else Requests(ts[..|ts| - 1]) + (if ts[|ts| - 1].Req? then [ts[|ts| - 1].r] else [])
  }

  /** A request object is among the requests exactly when some position
      holds it. */
  lemma {:induction false} RequestsMembers(ts: seq<Target>, q: Request)
    ensures q in Requests(ts) <==> exists i :: 0 <= i < |ts| && ts[i] == Req(q)
    decreases |ts|
  {
    if ts != [] {
      var init := ts[..|ts| - 1];
      var last := ts[|ts| - 1];
      RequestsMembers(init, q);
      assert Requests(ts) == Requests(init) + (if last.Req? then [last.r] else []);
      if q in Requests(init) {
        var i :| 0 <= i < |init| && init[i] == Req(q);
        assert ts[i] == Req(q);
      } else if last == Req(q) {
        assert ts[|ts| - 1] == Req(q);
      } else {
        forall i | 0 <= i < |ts|
          ensures ts[i] != Req(q)
        {
          if i < |init| {
            assert ts[i] == init[i];
          }
        }
      }
    }
  }

  /** When every value is a request, the requests are the values, one for one. */
  lemma {:induction false} RequestsOfRequests(ts: seq<Target>)
    requires forall i :: 0 <= i < |ts| ==> ts[i].Req?
    ensures |Requests(ts)| == |ts|
    ensures forall i :: 0 <= i < |ts| ==> Requests(ts)[i] == ts[i].r
    decreases |ts|
  {
    if ts != [] {
      RequestsOfRequests(ts[..|ts| - 1]);
    }
  }

  /** The request objects at the first `k` positions. */
  function Prefix(ts: seq<Target>, k: nat): (s: set<Request>)
    requires k <= FirstNonRequest(ts)
    ensures forall i :: 0 <= i < k ==> ts[i].r in s
  {
    set i | 0 <= i < k :: ts[i].r
  }

  /** One more position adds its request. */
  lemma PrefixStep(ts: seq<Target>, k: nat)
    requires k < FirstNonRequest(ts)
    ensures Prefix(ts, k + 1) == Prefix(ts, k) + {ts[k].r}
  {
  }

  /** `if not request.callback: request.callback = self.parse`. */
  function DefaultCallback(callback: Value, parse: Value): Value {
    Or(callback, parse)
  }

  /** Defaulting twice is defaulting once, so a request yielded twice ends
      with the callback it got the first time. */
  lemma DefaultCallbackTwice(callback: Value, parse: Value)
    requires Truthy(parse)
    ensures DefaultCallback(DefaultCallback(callback, parse), parse) == DefaultCallback(callback, parse)
  {
  }

  /** One round of the loop of `Spider.run`: the callback defaulted to
      `parse`, then `downloader.push(request)`. */
  method DefaultAndPush(d: Downloader, request: Request, parse: Value)
    modifies d`pool, d`pushed, request`callback
    ensures request.callback == DefaultCallback(old(request.callback), parse)
    ensures d.pool == old(d.pool) + multiset{request} && d.pushed == old(d.pushed) + [request]
  {
    if !Truthy(request.callback) {
      request.callback := parse;
    }
    var _ := d.Push(Req(request));
  }

  /** After `k` rounds of the loop of `Spider.run` on `d`, which started
      from queue `pool0`, push log `pushed0` and callbacks `callbacks0`. */
  ghost predicate Queued(d: Downloader, yielded: seq<Target>, k: nat, parse: Value, pool0: multiset<Request>,
                         pushed0: seq<Request>, callbacks0: map<Request, Value>)
    reads d, callbacks0.Keys
  {
    && k <= FirstNonRequest(yielded)
    && callbacks0.Keys == Prefix(yielded, FirstNonRequest(yielded))
    && d.pushed == pushed0 + Requests(yielded[..k])
    && d.pool == pool0 + multiset(Requests(yielded[..k]))
    && forall q :: q in callbacks0 ==>
         q.callback == if q in Prefix(yielded, k) then DefaultCallback(callbacks0[q], parse) else callbacks0[q]
  }

  /** Round `k` of the loop of `Spider.run`, on a request. */
  method QueueOne(d: Downloader, yielded: seq<Target>, k: nat, parse: Value, ghost pool0: multiset<Request>,
                  ghost pushed0: seq<Request>, ghost callbacks0: map<Request, Value>)
    requires Truthy(parse) && k < FirstNonRequest(yielded)
    requires Queued(d, yielded, k, parse, pool0, pushed0, callbacks0)
    modifies d`pool, d`pushed, yielded[k].r`callback
    ensures Queued(d, yielded, k + 1, parse, pool0, pushed0, callbacks0)
  {
    var request := yielded[k].r;
    assert request in callbacks0;
    DefaultAndPush(d, request, parse);
    PrefixStep(yielded, k);
    assert yielded[..k + 1][..k] == yielded[..k];
    assert Requests(yielded[..k + 1]) == Requests(yielded[..k]) + [request];
    assert d.pushed == pushed0 + Requests(yielded[..k + 1]);
    assert d.pool == pool0 + multiset(Requests(yielded[..k + 1]));
    forall q | q in callbacks0
      ensures q.callback == if q in Prefix(yielded, k + 1) then DefaultCallback(callbacks0[q], parse) else callbacks0[q]
    {
      if q == request {
        DefaultCallbackTwice(callbacks0[q], parse);
      }
    }
  }

  /** After the loop, each of the first `k` requests holds its defaulted callback. */
  lemma QueuedCallbacks(d: Downloader, yielded: seq<Target>, k: nat, parse: Value, pool0: multiset<Request>,
                        pushed0: seq<Request>, callbacks0: map<Request, Value>)
    requires Queued(d, yielded, k, parse, pool0, pushed0, callbacks0)
    ensures forall i :: 0 <= i < k ==>
      yielded[i].r in callbacks0 && yielded[i].r.callback == DefaultCallback(callbacks0[yielded[i].r], parse)
  {
    forall i | 0 <= i < k
      ensures yielded[i].r in callbacks0 && yielded[i].r.callback == DefaultCallback(callbacks0[yielded[i].r], parse)
    {
      assert yielded[i].r in Prefix(yielded, k);
    }
  }

  /** The loop of `Spider.run`: each yielded `Request` gets its callback
      defaulted to `parse` and is pushed, up to the first value that is not
      a `Request`, whose position is returned (the length when all are). */
  method QueueRequests(d: Downloader, yielded: seq<Target>, parse: Value) returns (k: nat)
    requires Truthy(parse)
    modifies d`pool, d`pushed, Prefix(yielded, FirstNonRequest(yielded))`callback
    ensures k == FirstNonRequest(yielded)
    ensures d.pushed == old(d.pushed) + Requests(yielded[..k])
    ensures d.pool == old(d.pool) + multiset(Requests(yielded[..k]))
    ensures forall i :: 0 <= i < k ==> yielded[i].r.callback == DefaultCallback(old(yielded[i].r.callback), parse)
  {
    ghost var callbacks0 := map q | q in Prefix(yielded, FirstNonRequest(yielded)) :: q.callback;
    k := 0;
    while k < |yielded| && yielded[k].Req?
      invariant k <= |yielded|
      invariant Queued(d, yielded, k, parse, old(d.pool), old(d.pushed), callbacks0)
      decreases |yielded| - k
    {
      QueueOne(d, yielded, k, parse, old(d.pool), old(d.pushed), callbacks0);
      k := k + 1;
      assert Queued(d, yielded, k, parse, old(d.pool), old(d.pushed), callbacks0);
    }
    QueuedCallbacks(d, yielded, k, parse, old(d.pool), old(d.pushed), callbacks0);
  }

  /** The observable state of a `Downloader`. */
  datatype DownloaderState = DownloaderState(pool: multiset<Request>, pushed: seq<Request>, running: seq<Request>,
                                             downloadNumber: int, extensions: seq<ExtEntry>)

  ghost function Snapshot(d: Downloader): DownloaderState
    reads d
  {
    DownloaderState(d.pool, d.pushed, d.running, d.downloadNumber, d.extensions)
  }

  /** The state of a new `Downloader()`. */
  const EmptyDownloader: DownloaderState := DownloaderState(multiset{}, [], [], 0, [])

  /** What seeding `yielded` does to a downloader in state `s0`, leaving
      `s1`: up to the first value that is not a `Request` the requests are
      pushed in order; a non-`Request` raises before `start`, which is
      otherwise run once, after the last push, taking the requests off the
      queue in the order `popped`. */
  ghost predicate Seeded(s0: DownloaderState, s1: DownloaderState, yielded: seq<Target>, popped: seq<Request>,
                         call: ExtCall, r: Result<seq<Request>, RunError>) {
    var k := FirstNonRequest(yielded);
    var queued := Requests(yielded[..k]);
    if k < |yielded| then
      && r == Err(NotARequest(k))
      && s1 == s0.(pool := s0.pool + multiset(queued), pushed := s0.pushed + queued)
    else
      var dispatched := Dispatch(popped, s0.extensions, call);
      && (r.Ok? <==> !dispatched.failed)
      && (r.Err? ==> r.error == ExtensionResult)
      && s1.pushed == s0.pushed + queued
      && multiset(popped) + s1.pool == s0.pool + multiset(queued)
      && s1.extensions == dispatched.entries
      && s1.downloadNumber == s0.downloadNumber + |dispatched.survivors|
      && (r.Ok? ==> s1.pool == multiset{} && s1.running == [] && r.value == s0.running + dispatched.survivors)
      && (r.Err? ==> s1.running == s0.running + dispatched.survivors)
  }

  /** The seeding part of `Spider.run` on the downloader `d`: queue, then
      `d.start()` when every value was a request. */
  method Seed(d: Downloader, yielded: seq<Target>, parse: Value, call: ExtCall)
    returns (r: Result<seq<Request>, RunError>, ghost popped: seq<Request>)
    requires Truthy(parse)
    modifies d`pool, d`pushed, d`running, d`downloadNumber, d`extensions
    modifies Prefix(yielded, FirstNonRequest(yielded))`callback
    ensures forall i :: 0 <= i < FirstNonRequest(yielded) ==>
      yielded[i].r.callback == DefaultCallback(old(yielded[i].r.callback), parse)
    ensures Seeded(old(Snapshot(d)), Snapshot(d), yielded, popped, call, r)
  {
    var k := QueueRequests(d, yielded, parse);
    if k < |yielded| {
      return Err(NotARequest(k)), [];
    }
    assert yielded[..k] == yielded;
    var ok, joined;
    ok, joined, popped := d.Start(call);
    if !ok {
      return Err(ExtensionResult), popped;
    }
    r := Ok(joined);
  }

  class Spider {
    /** The `BaseSpider` state set up by `super().__init__`. */
    const base: BaseSpider
    /** The bound method `self.parse`. */
    const parse: Value
    var downloader: DownloaderRef

    /** `Spider.__init__`: every custom setting becomes an attribute of the
        settings module, and a fresh `Downloader()` is created. */
    constructor (base: BaseSpider, parse: Value, settings: Settings, customSetting: map<string, Value>)
      modifies settings
      ensures this.base == base && this.parse == parse
      ensures settings.attrs == old(settings.attrs) + customSetting
      ensures downloader.DownloaderObj? && fresh(downloader.d)
      ensures downloader.d.maxThread == VNone && downloader.d.waitTime == VInt(0)
      ensures downloader.d.pool == multiset{} && downloader.d.running == []
      ensures downloader.d.downloadNumber == 0 && downloader.d.extensions == [] && downloader.d.pushed == []
    {
      this.base := base;
      this.parse := parse;
      var rest := customSetting.Keys;
      while rest != {}
        invariant rest <= customSetting.Keys
        invariant settings.attrs == old(settings.attrs) + map k | k in customSetting && k !in rest :: customSetting[k]
        decreases rest
      {
        var key :| key in rest;
        settings.attrs := settings.attrs[key := customSetting[key]];
        rest := rest - {key};
      }
      assert (map k | k in customSetting && k !in rest :: customSetting[k]) == customSetting;
      var d := new Downloader(VNone, VInt(0));
      downloader := DownloaderObj(d);
    }

    /** `Spider.run`, with `start_requests()` given as the values it
        yields: a downloader class is instantiated first (as
        `Downloader()`), then the requests are seeded into it. */
    method Run(yielded: seq<Target>, call: ExtCall) returns (r: Result<seq<Request>, RunError>, ghost popped: seq<Request>)
      requires Truthy(parse)
      modifies this`downloader
      modifies if downloader.DownloaderObj? then {downloader.d} else {}
      modifies Prefix(yielded, FirstNonRequest(yielded))`callback
      ensures downloader.DownloaderObj?
      ensures old(downloader).DownloaderObj? ==> downloader == old(downloader)
      ensures old(downloader).DownloaderClass? ==>
        && fresh(downloader.d) && downloader.d.maxThread == VNone && downloader.d.waitTime == VInt(0)
      ensures forall i :: 0 <= i < FirstNonRequest(yielded) ==>
        yielded[i].r.callback == DefaultCallback(old(yielded[i].r.callback), parse)
      ensures Seeded(if old(downloader).DownloaderObj? then old(Snapshot(downloader.d)) else EmptyDownloader,
                     Snapshot(downloader.d), yielded, popped, call, r)
    {
      if downloader.DownloaderClass? {
        var created := new Downloader(VNone, VInt(0));
        downloader := DownloaderObj(created);
      }
      r, popped := Seed(downloader.d, yielded, parse, call);
    }
  }
}
