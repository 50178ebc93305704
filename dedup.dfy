/** What the two `RequestFilter`s share: a Redis server reduced to named
    sets with optional expiries, the request fingerprint `_fingerprint`
    (canonical URL plus the body-like keyword arguments, hashed), and the
    "set an expiry if missing, then add the fingerprint" step.

    `canonicalize_url` and `get_md5` are uninterpreted: they are passed in
    as functions. */
module Dedup {
  import opened PyValues
  import opened Network

  /** The members of `key`, empty for a missing key. */
  function Members(sets: map<string, set<string>>, key: string): set<string> {
    if key in sets then sets[key] else {}
  }

  /** A Redis server as the filters use it: `SADD`, `EXISTS`, `TTL`, `EXPIRE`. */
  class SetStore {
    var sets: map<string, set<string>>
    /** The keys that carry an expiry, with the seconds it was set to. */
    var expiries: map<string, int>

    /** Only existing keys expire, and a stored expiry is positive. */
    ghost predicate Valid()
      reads this
    {
      expiries.Keys <= sets.Keys && forall k :: k in expiries ==> expiries[k] > 0
    }

    constructor ()
      ensures sets == map[] && expiries == map[] && Valid()
    {
      sets := map[];
      expiries := map[];
    }

    /** `EXISTS key`. */
    predicate Exists(key: string)
      reads this
    {
      key in sets
    }

    /** `TTL key`: -2 for a missing key, -1 for a key without an expiry. */
    function Ttl(key: string): (t: int)
      reads this
      requires Valid()
      ensures t == -2 <==> key !in sets
      ensures t == -1 <==> key in sets && key !in expiries
      ensures key in expiries ==> t > 0
    {
      if key !in sets then -2 else if key !in expiries then -1 else expiries[key]
    }

    /** `EXPIRE key seconds`: fails on a missing key; a non-positive
        timeout deletes the key at once. */
    method Expire(key: string, seconds: int) returns (ok: bool)
      requires Valid()
      modifies this
      ensures Valid()
      ensures ok <==> key in old(sets)
      ensures !ok ==> sets == old(sets) && expiries == old(expiries)
      ensures ok && seconds <= 0 ==> sets == old(sets) - {key} && expiries == old(expiries) - {key}
      ensures ok && seconds > 0 ==> sets == old(sets) && expiries == old(expiries)[key := seconds]
    {
      if key !in sets {
        return false;
      }
      if seconds <= 0 {
        sets := sets - {key};
        expiries := expiries - {key};
      } else {
        expiries := expiries[key := seconds];
      }
      return true;
    }

    /** `SADD key member`: 1 when the member is new, 0 when it was there. */
    method Sadd(key: string, member: string) returns (added: int)
      requires Valid()
      modifies this`sets
      ensures Valid()
      ensures added == (if member in Members(old(sets), key) then 0 else 1)
      ensures sets == old(sets)[key := Members(old(sets), key) + {member}]
    {
      added := if member in Members(sets, key) then 0 else 1;
      sets := sets[key := Members(sets, key) + {member}];
    }
  }

  /** `__REDIS_KEYS__` of both filters: the kwargs handed on to the Redis client. */
  const RedisKeys: set<string> := {
    "db", "password", "socket_timeout", "socket_connect_timeout", "socket_keepalive",
    "socket_keepalive_options", "connection_pool", "unix_socket_path", "encoding",
    "encoding_errors", "charset", "errors", "decode_responses", "retry_on_timeout", "ssl",
    "ssl_keyfile", "ssl_certfile", "ssl_cert_reqs", "ssl_ca_certs", "ssl_check_hostname",
    "max_connections", "single_connection_client", "health_check_interval", "client_name",
    "username"}

  /** `set_key or 'urls'`, with `""` standing for `None`. */
  function SetKeyOrDefault(setKey: string): (k: string)
    ensures k != ""
    ensures setKey != "" ==> k == setKey
  {
    if setKey == "" then "urls" else setKey
  }

  /** The sets once the optional expiry of the filter step is applied: a
      negative timeout on a key without expiry deletes the key. */
  function AfterTimeout(sets: map<string, set<string>>, expiries: map<string, int>, key: string,
                        timeout: int): map<string, set<string>> {
    if timeout < 0 && key in sets && key !in expiries then sets - {key} else sets
  }

  /** The expiries once the optional expiry of the filter step is applied:
      a positive timeout is set on an existing key that has none. */
  function ExpiriesAfter(sets: map<string, set<string>>, expiries: map<string, int>, key: string,
                         timeout: int): map<string, int> {
    if timeout > 0 && key in sets && key !in expiries then expiries[key := timeout] else expiries
  }

  /** One filter step on the sets `sets0` and expiries `expiries0`, giving
      `sets1` and `expiries1`: the timeout is applied, `fp` is added under
      `key`, and the request passes exactly when `fp` was not already there. */
  predicate FilterStep(sets0: map<string, set<string>>, expiries0: map<string, int>,
                       sets1: map<string, set<string>>, expiries1: map<string, int>,
                       key: string, timeout: int, fp: string, passed: bool)
  {
    var purged := AfterTimeout(sets0, expiries0, key, timeout);
    && (passed <==> fp !in Members(purged, key))
    && sets1 == purged[key := Members(purged, key) + {fp}]
    && expiries1 == ExpiriesAfter(sets0, expiries0, key, timeout)
  }

  /** With no timeout or a positive one, the same fingerprint filtered twice
      is dropped the second time. */
  lemma SecondStepDrops(sets0: map<string, set<string>>, expiries0: map<string, int>,
                        sets1: map<string, set<string>>, expiries1: map<string, int>,
                        sets2: map<string, set<string>>, expiries2: map<string, int>,
                        key: string, timeout: int, fp: string, passed1: bool, passed2: bool)
    requires timeout >= 0
    requires FilterStep(sets0, expiries0, sets1, expiries1, key, timeout, fp, passed1)
    requires FilterStep(sets1, expiries1, sets2, expiries2, key, timeout, fp, passed2)
    ensures !passed2
    ensures sets2 == sets1
  {
  }

  /** A negative timeout makes Redis delete a key without TTL, so on such
      a key every request passes, even one seen just before. */
  lemma NegativeTimeoutPassesRepeats(sets0: map<string, set<string>>, expiries0: map<string, int>,
                                     sets1: map<string, set<string>>, expiries1: map<string, int>,
                                     sets2: map<string, set<string>>, expiries2: map<string, int>,
                                     key: string, timeout: int, fp: string, passed1: bool, passed2: bool)
    requires timeout < 0 && key !in expiries0
    requires FilterStep(sets0, expiries0, sets1, expiries1, key, timeout, fp, passed1)
    requires FilterStep(sets1, expiries1, sets2, expiries2, key, timeout, fp, passed2)
    ensures passed2
    ensures sets2[key] == {fp}
  {
  }

  /** extensions.py:41-53 and middlewares.py:58-70, once the priority
      matches: with a timeout (0 standing for `None`), a key that exists and
      has no TTL is given one; then the fingerprint is added. */
  method AddFingerprint(store: SetStore, setKey: string, timeout: int, fp: string) returns (added: bool)
    requires store.Valid()
    modifies store
    ensures store.Valid()
    ensures FilterStep(old(store.sets), old(store.expiries), store.sets, store.expiries, setKey, timeout, fp, added)
    ensures timeout >= 0 ==> forall k :: k in old(store.sets) ==> old(store.sets)[k] <= Members(store.sets, k)
  {
    if timeout != 0 {
      if store.Exists(setKey) && store.Ttl(setKey) == -1 {
        var _ := store.Expire(setKey, timeout);
      }
    }
    var code := store.Sadd(setKey, fp);
    added := code != 0;
  }

  // ---------------------------------------------------------------------
  // _fingerprint
  // ---------------------------------------------------------------------

  /** The keyword arguments `_fingerprint` looks at, in order. */
  const FingerprintKeys: seq<string> := ["params", "data", "files", "auth", "cert", "json"]

  /** The values of the truthy ones among `keys`, in order. */
  function BodyValues(kwargs: map<string, Value>, keys: seq<string>): (vs: seq<Value>)
    ensures |vs| <= |keys|
    decreases |keys|
  {
    if keys == [] then []
    else
      var k := keys[|keys| - 1];
      BodyValues(kwargs, keys[..|keys| - 1]) + (if Truthy(Get(kwargs, k)) then [kwargs[k]] else [])
  }

  /** What `get_md5` hashes: the canonical URL, then the body values. */
  function FingerprintArgs(canonicalUrl: string, kwargs: map<string, Value>): seq<Value> {
    [VStr(canonicalUrl)] + BodyValues(kwargs, FingerprintKeys)
  }

  /** `_fingerprint` as evidently intended: the listed values are read from
      `request_kwargs`, the dict just tested. */
  method Fingerprint(request: Request, canonicalize: Value -> string, md5: seq<Value> -> string)
    returns (fp: string)
    ensures fp == md5(FingerprintArgs(canonicalize(request.url), request.requestKwargs))
  {
    var args := [VStr(canonicalize(request.url))];
    for i := 0 to |FingerprintKeys|
      invariant args == [VStr(canonicalize(request.url))] + BodyValues(request.requestKwargs, FingerprintKeys[..i])
    {
      var k := FingerprintKeys[i];
      assert FingerprintKeys[..i + 1][..i] == FingerprintKeys[..i];
      if Truthy(Get(request.requestKwargs, k)) {
        args := args + [request.requestKwargs[k]];
      }
    }
    assert FingerprintKeys[..|FingerprintKeys|] == FingerprintKeys;
    fp := md5(args);
  }

  /** Some listed keyword argument is truthy. */
  predicate HasBody(kwargs: map<string, Value>) {
    exists i :: 0 <= i < |FingerprintKeys| && Truthy(Get(kwargs, FingerprintKeys[i]))
  }

  /** The outcome of `_fingerprint` as written: the first truthy listed
      kwarg sends it to `request.requests_kwargs`, which does not exist. */
  function FingerprintAsWrittenOutcome(canonicalUrl: string, kwargs: map<string, Value>,
                                       md5: seq<Value> -> string): (r: Result<string, AttributeError>)
    ensures r.Err? <==> HasBody(kwargs)
    ensures r.Err? ==> r.error == AttributeError("requests_kwargs")
  {
    if HasBody(kwargs) then Err(AttributeError("requests_kwargs")) else Ok(md5([VStr(canonicalUrl)]))
  }

  /** extensions.py:61-75 and middlewares.py:79-93 as written. */
  method FingerprintAsWritten(request: Request, canonicalize: Value -> string, md5: seq<Value> -> string)
    returns (r: Result<string, AttributeError>)
    ensures r == FingerprintAsWrittenOutcome(canonicalize(request.url), request.requestKwargs, md5)
  {
    var args := [VStr(canonicalize(request.url))];
    for i := 0 to |FingerprintKeys|
      invariant forall j :: 0 <= j < i ==> !Truthy(Get(request.requestKwargs, FingerprintKeys[j]))
    {
      if Truthy(Get(request.requestKwargs, FingerprintKeys[i])) {
        return Err(AttributeError("requests_kwargs"));
      }
    }
    r := Ok(md5(args));
  }

  /** Without body-like kwargs there is nothing to hash but the URL. */
  lemma {:induction false} NoBodyValues(kwargs: map<string, Value>, keys: seq<string>)
    requires forall j :: 0 <= j < |keys| ==> !Truthy(Get(kwargs, keys[j]))
    ensures BodyValues(kwargs, keys) == []
    decreases |keys|
  {
    if keys != [] {
      NoBodyValues(kwargs, keys[..|keys| - 1]);
    }
  }

  /** The fingerprint depends only on the canonical URL and the listed
      kwargs: requests that agree on those collide. */
  lemma {:induction false} BodyValuesOnlyReadListedKeys(k1: map<string, Value>, k2: map<string, Value>, keys: seq<string>)
    requires forall j :: 0 <= j < |keys| ==> Get(k1, keys[j]) == Get(k2, keys[j])
    ensures BodyValues(k1, keys) == BodyValues(k2, keys)
    decreases |keys|
  {
    if keys != [] {
      BodyValuesOnlyReadListedKeys(k1, k2, keys[..|keys| - 1]);
    }
  }

  /** Two requests with the same canonical URL and none of
      params/data/files/auth/cert/json set have the same fingerprint. */
  lemma SameUrlNoBodySameFingerprint(u: string, k1: map<string, Value>, k2: map<string, Value>, md5: seq<Value> -> string)
    requires !HasBody(k1) && !HasBody(k2)
    ensures md5(FingerprintArgs(u, k1)) == md5(FingerprintArgs(u, k2))
  {
    NoBodyValues(k1, FingerprintKeys);
    NoBodyValues(k2, FingerprintKeys);
  }

  /** When no listed kwarg is set, the code as written computes the
      intended fingerprint. */
  lemma AsWrittenAgreesWithoutBody(u: string, kwargs: map<string, Value>, md5: seq<Value> -> string)
    requires !HasBody(kwargs)
    ensures FingerprintAsWrittenOutcome(u, kwargs, md5) == Ok(md5(FingerprintArgs(u, kwargs)))
  {
    NoBodyValues(kwargs, FingerprintKeys);
    assert FingerprintArgs(u, kwargs) == [VStr(u)];
  }

  /** A POST request with `data='a=1'`: the code as written raises
      AttributeError, while the intended fingerprint hashes the URL and the
      data. */
  lemma AsWrittenFailsOnData(u: string, md5: seq<Value> -> string)
    ensures var kwargs := map["data" := VStr("a=1")];
      && FingerprintAsWrittenOutcome(u, kwargs, md5).Err?
      && FingerprintArgs(u, kwargs) == [VStr(u), VStr("a=1")]
  {
    var kwargs := map["data" := VStr("a=1")];
    var d := [VStr("a=1")];
    assert Truthy(Get(kwargs, FingerprintKeys[1]));
    assert BodyValues(kwargs, FingerprintKeys[..1]) == [];
    assert FingerprintKeys[..2][..1] == FingerprintKeys[..1];
    for i := 2 to 6
      invariant BodyValues(kwargs, FingerprintKeys[..i]) == d
    {
      assert FingerprintKeys[..i + 1][..i] == FingerprintKeys[..i];
    }
    assert FingerprintKeys[..6] == FingerprintKeys;
  }
}
