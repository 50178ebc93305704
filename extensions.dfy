/** The extension layer: the no-op `BaseExtension`, the Redis-backed
    `RequestFilter` extension, and `_load_extensions`, which folds a target
    through a list of extension dicts. An extension's `process` is an
    oracle. */
module Extensions {
  import opened PyValues
  import opened Network
  import opened Dedup

  /** `BaseExtension.process`: returns `None`. */
  function BaseProcess(target: Target): (r: Target)
    ensures !TruthyTarget(r) && r == Other(VNone)
  {
    Other(VNone)
  }

  /** The extension `RequestFilter`. The class is a Redis client itself;
      here the server it talks to is `store`. */
  class RequestFilter {
    var store: SetStore
    var redisKwargs: map<string, Value>
    var setKey: string
    /** Seconds; 0 stands for `None`. */
    var timeout: int
    var priority: Value

    ghost predicate Valid()
      reads this, store
    {
      store.Valid()
    }

    /** `RequestFilter.__init__`: the filter level is always `None`. */
    constructor (store: SetStore, setKey: string, timeout: int, kwargs: map<string, Value>)
      requires store.Valid()
      ensures Valid()
      ensures this.store == store && this.setKey == SetKeyOrDefault(setKey) && this.timeout == timeout
      ensures priority == VNone && redisKwargs == KeepKeys(kwargs, RedisKeys)
    {
      this.store := store;
      redisKwargs := KeepKeys(kwargs, RedisKeys);
      this.setKey := SetKeyOrDefault(setKey);
      this.timeout := timeout;
      priority := VNone;
    }

    /** `RequestFilter.process`: a request of another priority passes
        untouched; otherwise it passes only when its fingerprint is new to
        the set, and is replaced by `None` when it was already there. */
    method Process(request: Request, canonicalize: Value -> string, md5: seq<Value> -> string)
      returns (t: Target)
      requires Valid()
      modifies store
      ensures Valid()
      ensures priority != request.priority ==> t == Req(request) && unchanged(store)
      ensures priority == request.priority ==>
        var fp := md5(FingerprintArgs(canonicalize(request.url), request.requestKwargs));
        && FilterStep(old(store.sets), old(store.expiries), store.sets, store.expiries, setKey, timeout, fp,
                      t == Req(request))
        && (t != Req(request) ==> t == Other(VNone))
    {
      if priority != request.priority {
        return Req(request);
      }
      var fp := Fingerprint(request, canonicalize, md5);
      var added := AddFingerprint(store, setKey, timeout, fp);
      if !added {
        return Other(VNone);
      }
      return Req(request);
    }
  }

  /** A `RequestFilter` extension built through its constructor keeps the
      default level `None`, and `Request.__init__` never leaves a request at
      priority `None`: whatever request is built, `process` lets it through
      and leaves Redis untouched. */
  method DefaultFilterPassesEveryRequest(store: SetStore, setKey: string, timeout: int,
                                         redisKwargs: map<string, Value>,
                                         url: Value, httpMethod: Value, args: Value,
                                         kwargs: map<string, Value>, requestKeys: set<string>,
                                         canonicalize: Value -> string, md5: seq<Value> -> string)
    returns (r: Result<Target, InitError>)
    requires store.Valid()
    modifies store
    ensures r.Err? <==> InitRequest(url, httpMethod, args, kwargs, requestKeys).Err?
    ensures r.Ok? ==> r.value.Req? && r.value.r.Fields() == InitRequest(url, httpMethod, args, kwargs, requestKeys).value
    ensures unchanged(store)
  {
    var filter := new RequestFilter(store, setKey, timeout, redisKwargs);
    var q := Request.Create(url, httpMethod, args, kwargs, requestKeys);
    if q.Err? {
      return Err(q.error);
    }
    var t := filter.Process(q.value, canonicalize, md5);
    r := Ok(t);
  }

  // ---------------------------------------------------------------------
  // _load_extensions
  // ---------------------------------------------------------------------

  /** An extension object: its identity and whether it has `process`. */
  datatype Extension = Extension(id: nat, hasProcess: bool)

  /** One extension dict; `count` may be absent. */
  datatype LoadEntry = LoadEntry(extension: Extension, args: seq<Value>, kwargs: map<string, Value>, count: Option<int>)

  /** `extension.process(target, *args, **kwargs)`. */
  type ProcessCall = (Extension, Target, seq<Value>, map<string, Value>) -> Target

  /** `assert hasattr(extension, 'process')` failing at the given position. */
  datatype LoadError = MissingProcess(index: nat)

  /** The target returned (or the failure), the extension dicts afterwards,
      and the target each called extension was handed. */
  datatype LoadOutcome = LoadOutcome(result: Result<Target, LoadError>, entries: seq<LoadEntry>, inputs: seq<Target>)

  /** `if 'count' not in ...: count = 0`, then `count += 1`. */
  function Bump(e: LoadEntry): (b: LoadEntry)
    ensures b.extension == e.extension && b.args == e.args && b.kwargs == e.kwargs
    ensures b.count == Some(if e.count.Some? then e.count.value + 1 else 1)
  {
    e.(count := Some((if e.count.Some? then e.count.value else 0) + 1))
  }

  /** `if result: target = result`. */
  function Keep(target: Target, result: Target): (t: Target)
    ensures TruthyTarget(result) ==> t == result
    ensures !TruthyTarget(result) ==> t == target
  {
    if TruthyTarget(result) then result else target
  }

  /** extensions.py:78-98 from position `i` on, with the dicts before `i`
      already updated. */
  function LoadFrom(entries: seq<LoadEntry>, i: nat, target: Target, call: ProcessCall): (o: LoadOutcome)
    requires i <= |entries|
    ensures |o.entries| == |entries|
    decreases |entries| - i
  {
    if i == |entries| then LoadOutcome(Ok(target), entries, [])
    else
      var e := entries[i];
      if !e.extension.hasProcess then LoadOutcome(Err(MissingProcess(i)), entries, [])
      else
        var rest := LoadFrom(entries[i := Bump(e)], i + 1, Keep(target, call(e.extension, target, e.args, e.kwargs)), call);
        LoadOutcome(rest.result, rest.entries, [target] + rest.inputs)
  }

  /** `_load_extensions(target, extensions)`; the list of dicts is updated in place. */
  method LoadExtensions(target: Target, extensions: array<LoadEntry>, call: ProcessCall)
    returns (r: Result<Target, LoadError>)
    modifies extensions
    ensures var o := LoadFrom(old(extensions[..]), 0, target, call);
            r == o.result && extensions[..] == o.entries
  {
    ghost var whole := LoadFrom(extensions[..], 0, target, call);
    var t := target;
    for i := 0 to extensions.Length
      invariant var rest := LoadFrom(extensions[..], i, t, call);
                rest.result == whole.result && rest.entries == whole.entries
    {
      var e := extensions[i];
      if !e.extension.hasProcess {
        return Err(MissingProcess(i));
      }
      var result := call(e.extension, t, e.args, e.kwargs);
      if TruthyTarget(result) {
        t := result;
      }
      extensions[i] := Bump(e);
    }
    return Ok(t);
  }

  /** Every called extension had `process`, and the dicts of exactly the
      called ones (those before the failing one, if any) were bumped by one. */
  lemma {:induction false} LoadCounts(entries: seq<LoadEntry>, i: nat, target: Target, call: ProcessCall)
    requires i <= |entries|
    ensures var o := LoadFrom(entries, i, target, call);
      var stop := if o.result.Err? then o.result.error.index else |entries|;
      && i <= stop <= |entries|
      && (o.result.Err? ==> stop < |entries| && !entries[stop].extension.hasProcess)
      && (forall j :: i <= j < stop ==> entries[j].extension.hasProcess)
      && |o.inputs| == stop - i
      && (forall j :: 0 <= j < i ==> o.entries[j] == entries[j])
      && (forall j :: i <= j < stop ==> o.entries[j] == Bump(entries[j]))
      && (forall j :: stop <= j < |entries| ==> o.entries[j] == entries[j])
    decreases |entries| - i
  {
    if i < |entries| && entries[i].extension.hasProcess {
      var e := entries[i];
      var next := Keep(target, call(e.extension, target, e.args, e.kwargs));
      var updated := entries[i := Bump(e)];
      LoadCounts(updated, i + 1, next, call);
      var o := LoadFrom(entries, i, target, call);
      assert o.result == LoadFrom(updated, i + 1, next, call).result;
      assert o.entries == LoadFrom(updated, i + 1, next, call).entries;
      assert forall j :: 0 <= j < |entries| && j != i ==> updated[j] == entries[j];
    }
  }

  /** Each extension is handed the current target: the original one first,
      then whatever the previous call left (its truthy result, or the
      target it was given). */
  lemma {:induction false} LoadPassesCurrentTarget(entries: seq<LoadEntry>, i: nat, target: Target, call: ProcessCall)
    requires i <= |entries|
    ensures var o := LoadFrom(entries, i, target, call);
      && i + |o.inputs| <= |entries|
      && (o.inputs != [] ==> o.inputs[0] == target)
      && (forall j :: 0 <= j < |o.inputs| - 1 ==>
            var e := entries[i + j];
            o.inputs[j + 1] == Keep(o.inputs[j], call(e.extension, o.inputs[j], e.args, e.kwargs)))
    decreases |entries| - i
  {
    LoadCounts(entries, i, target, call);
    if i < |entries| && entries[i].extension.hasProcess {
      var e := entries[i];
      var next := Keep(target, call(e.extension, target, e.args, e.kwargs));
      var updated := entries[i := Bump(e)];
      LoadPassesCurrentTarget(updated, i + 1, next, call);
      var rest := LoadFrom(updated, i + 1, next, call);
      var o := LoadFrom(entries, i, target, call);
      forall j | 0 <= j < |o.inputs| - 1
        ensures o.inputs[j + 1] == Keep(o.inputs[j], call(entries[i + j].extension, o.inputs[j], entries[i + j].args, entries[i + j].kwargs))
      {
        if j > 0 {
          assert o.inputs[j] == rest.inputs[j - 1];
          assert entries[i + j] == updated[i + 1 + (j - 1)];
        }
      }
    }
  }

  /** A fold that reaches the end returns what the last extension left:
      its truthy result, or the target it was handed. */
  lemma {:induction false} LoadReturnsLastKept(entries: seq<LoadEntry>, i: nat, target: Target, call: ProcessCall)
    requires i <= |entries|
    ensures var o := LoadFrom(entries, i, target, call);
      o.result.Ok? ==>
        o.result.value == (if o.inputs == [] then target
                           else var e := entries[|entries| - 1];
                                var last := o.inputs[|o.inputs| - 1];
                                Keep(last, call(e.extension, last, e.args, e.kwargs)))
    decreases |entries| - i
  {
    if i < |entries| && entries[i].extension.hasProcess {
      var e := entries[i];
      var next := Keep(target, call(e.extension, target, e.args, e.kwargs));
      var updated := entries[i := Bump(e)];
      LoadReturnsLastKept(updated, i + 1, next, call);
      LoadCounts(updated, i + 1, next, call);
      var rest := LoadFrom(updated, i + 1, next, call);
      var o := LoadFrom(entries, i, target, call);
      if o.result.Ok? {
        if rest.inputs == [] {
          assert i + 1 == |entries|;
        } else {
          assert o.inputs[|o.inputs| - 1] == rest.inputs[|rest.inputs| - 1];
          assert entries[|entries| - 1] == updated[|entries| - 1];
        }
      }
    }
  }

  /** A falsy result never replaces the target, so the fold cannot turn a
      truthy target into a falsy one. */
  lemma {:induction false} LoadKeepsTruthyTarget(entries: seq<LoadEntry>, i: nat, target: Target, call: ProcessCall)
    requires i <= |entries|
    requires TruthyTarget(target)
    ensures var o := LoadFrom(entries, i, target, call);
            o.result.Ok? ==> TruthyTarget(o.result.value)
    decreases |entries| - i
  {
    if i < |entries| && entries[i].extension.hasProcess {
      var e := entries[i];
      LoadKeepsTruthyTarget(entries[i := Bump(e)], i + 1, Keep(target, call(e.extension, target, e.args, e.kwargs)), call);
    }
  }

  /** Extensions that behave like `BaseExtension` (always `None`) leave the
      target as it was. */
  lemma {:induction false} BaseExtensionsKeepTarget(entries: seq<LoadEntry>, i: nat, target: Target, call: ProcessCall)
    requires i <= |entries|
    requires forall j, t :: i <= j < |entries| ==>
               call(entries[j].extension, t, entries[j].args, entries[j].kwargs) == BaseProcess(t)
    ensures var o := LoadFrom(entries, i, target, call);
            o.result.Ok? ==> o.result.value == target
    decreases |entries| - i
  {
    if i < |entries| && entries[i].extension.hasProcess {
      var e := entries[i];
      assert call(e.extension, target, e.args, e.kwargs) == BaseProcess(target);
      BaseExtensionsKeepTarget(entries[i := Bump(e)], i + 1, target, call);
    }
  }
}
