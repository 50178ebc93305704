# espider, modelled in Dafny

espider is a small threaded crawler. A `Request` performs an HTTP call and
retries on any status other than 200. A `BaseSpider` holds a parsed URL and
default keyword arguments and builds `Request`s from them. A `Downloader`
drains a priority queue of requests: each one goes through an ordered chain
of extensions before it starts. Two Redis-backed `RequestFilter`s drop
requests whose fingerprint was seen before: one is an extension, the other a
middleware. A `Response` wrapper selects the encoding and caches the text,
json and selector. A `Spider` seeds the downloader from the requests its
`start_requests` yields.

This project models that core sequentially. Everything outside it is an
oracle passed in as a parameter or a constant: the HTTP transport, Redis,
the threads, the parsing libraries and the helpers in `espider/utils`.

- `values.dfy` (`PyValues`): the Python values the crawler inspects. It
  covers truthiness, `or`, `dict.get`, and the string operations the crawler
  uses (`upper`, `in`, `strip`, `join`).
- `network.dfy` (`Network`):
  - `Request.__init__` as a function returning the validated fields or the
    error it raises;
  - `Request.run` as a recursive method of the `Request` class, over a
    transport that gives a status per attempt;
  - `BaseSpider.__init__`, the `url` property and `new_request`;
  - the `Downloader` class with `push`, `add_extension`, `_finish`, `start`
    and `_join_thread`.
- `dedup.dfy` (`Dedup`):
  - the Redis server as named sets with expiries;
  - the "give the set a TTL, then `SADD`" step both filters share;
  - `_fingerprint`, both as written and as evidently intended (see
    Findings).
- `extensions.py` and `middlewares.py` are modelled in two modules:
  - `extensions.dfy` (`Extensions`): `BaseExtension`, the extension
    `RequestFilter`, and `_load_extensions` over an array of extension
    dicts.
  - `middlewares.dfy` (`Middlewares`): the `BaseMiddleware` default hooks,
    and the middleware `RequestFilter` with its drop counter.
- `response.dfy` (`Response`):
  - control-character stripping;
  - encoding selection;
  - the JSON-only header charset rule and `is_html`;
  - the quote rewrite of `re`/`re_first`;
  - `_query_from_map`;
  - the `Response` class with its `encoding` getter and setter and the
    cached `text`, `json` and `selector`.
- `spider.dfy` (`Spider`): `Spider.__init__` and `Spider.run`.

The Python values that drive the crawler are one datatype, `Value`. What is
passed through the extension chain is a `Target`: a `Request` object or any
other value. A `Request` object is always truthy.

The queue's pop order is not specified. The queue is a multiset, any element
may be popped, and the order is returned as a ghost sequence `popped`.
`running_thread` is a FIFO sequence.

One consequence the model proves concerns the extension `RequestFilter`:
`Request.__init__` never leaves `priority` as `None`, but the filter's level
is fixed to `None`. So, as constructed, the extension `RequestFilter` lets
every request through and leaves Redis untouched
(`Extensions.DefaultFilterPassesEveryRequest`).

## Model

| member | source | states |
|---|---|---|
| PyValues.StripRemovesEndRuns | espider/network.py:133 | `str.strip('?')` returns the part of the string between its leading and trailing runs of `?`: everything outside it is `?`, and it neither starts nor ends with `?` |
| PyValues.ContainsIsSubstring | espider/parser/response.py:123 | Python's `sub in s` holds exactly when `sub` occurs at some position of `s` |
| PyValues.StripDropsOneTrailing | espider/network.py:133 | a string without `?` at either end followed by one `?` strips back to itself |
| Network.NormaliseMethod | espider/network.py:40 | an empty method becomes `GET`; any other method is upper-cased |
| Network.RetryBudget | espider/network.py:50 | a missing or falsy `max_retry` gives 0; an integer is kept as it is |
| Network.KeepKeys | espider/network.py:44 | the filtered kwargs hold exactly the given keys that are allowed, with their values |
| Network.InitRequest | espider/network.py:34-54 | construction fails exactly when the method is not a string or its normalised form is not one of the seven allowed methods. Otherwise: `request_kwargs` holds only allowed keys, with the given values; the method is `POST` when the filtered `data` or `json` is truthy, the normalised method otherwise; `priority` is the truthy given one or 0, and is never `None`; `max_retry` defaults to 0; `args` defaults to `()`; url, callback and session are the given ones |
| Network.Request.constructor | espider/network.py:34-54 | the object holds the validated fields, no response and `retry_count == 0` |
| Network.Request.Create | espider/network.py:34-54 | fails exactly when `__init__` raises, with the same error; otherwise returns a fresh request whose fields are the validated ones |
| Network.CallForShape | espider/network.py:57-62 | with a session the call goes through it and drops `cookies`; without one every request kwarg is passed on, with the same method and url |
| Network.Retries | espider/network.py:64-66 | the number of retries never exceeds the non-negative part of `max_retry` |
| Network.RetriesStopAtFirstSuccess | espider/network.py:64-66 | every retried attempt answered something other than 200; retrying stops at the first 200 unless the budget ran out first |
| Network.AlwaysFailingSpendsBudget | espider/network.py:64-66 | a transport that never answers 200 uses the whole budget |
| Network.FinalAttempt | espider/network.py:64-72 | the response kept is the one from the attempt after all retries |
| Network.FinalResponseIsFirstSuccess | espider/network.py:64-72 | the kept response comes from an attempt within the budget; every earlier attempt failed; it is a 200 unless the budget ran out |
| Network.RetriesDependOnPrefix | espider/network.py:64-66 | the retry count depends only on the statuses of the first `max_retry + 1` attempts |
| Network.Request.Run | espider/network.py:56-76 | fails exactly when a truthy session is not a `Session`, and then changes nothing. Otherwise: it makes one identical transport call per attempt, `Retries + 1` in all; `max_retry` drops and `retry_count` rises by the number of retries; `response` is the final attempt's; `args` becomes a tuple; the callback runs once on the final response when it is truthy, and sees `retry_count` at its value before `run`; no other field changes |
| Network.RunFromFresh | espider/network.py:64-76 | from `retry_count == 0` and `max_retry == M >= 0`: at most `M + 1` attempts, `retry_count + max_retry == M` afterwards, at most one callback call, which sees `retry_count == 0` |
| Network.SpiderMethod | espider/network.py:94-95 | an explicit method is kept; otherwise the method is `POST` exactly when `data` or `json` is truthy, and `GET` otherwise |
| Network.SpiderRequestKwargs | espider/network.py:105-108 | the spider's `request_kwargs` are the allowed given kwargs minus `url`, `data`, `json`, `headers` and `cookies` |
| Network.InitHeader | espider/network.py:113-119 | the initial headers hold the User-Agent; a `Content-Type` is added exactly for POST, JSON when the converted `json` is truthy and form-encoded otherwise |
| Network.InitBaseSpider | espider/network.py:94-119 | the corrected constructor: the method is as `SpiderMethod` chooses; `request_kwargs` holds exactly the allowed, non-reserved given kwargs with their values; given headers override those of `_init_header` for the chosen method; a session exists exactly when asked for |
| Network.BodySpiderContentType | espider/network.py:94-119 | a spider with a body and no explicit method or headers is a POST spider sending the content type its body calls for |
| Network.InitBaseSpiderAsWritten | espider/network.py:94-119 | as written, the constructor raises `AttributeError` exactly when the chosen method is `POST` |
| Network.PostSpiderFailsAsWritten | espider/network.py:94-116 | `BaseSpider(url, data='a=1')` raises as written, while the corrected constructor sends a form content type |
| Network.Url | espider/network.py:121-133 | the URL neither starts nor ends with `?` |
| Network.UrlWithoutQuery | espider/network.py:126-133 | an empty query leaves exactly `protocol://domain/path`, with no `?` |
| Network.UrlWithQuery | espider/network.py:121-133 | a non-empty query is kept after a single `?` |
| Network.SelfNamedParamIsRaw | espider/network.py:128-129 | a lone parameter whose key equals its value is written bare, not encoded |
| Network.NamedFields | espider/network.py:219-231 | the named fields of `new_request` with their defaults: method `GET`, data `''`, json `{}`, headers the spider's; the session is set only with `use_session` |
| Network.NewRequestBoundFields | espider/network.py:217-233 | `new_request` fails exactly when the method in force (explicit kwarg, else argument, else `GET`) is not allowed; the url and args are the explicit kwarg when given, else the argument |
| Network.NewRequestUnboundFields | espider/network.py:217-233 | the callback and session are the explicit kwarg when given, else the argument (the session only with `use_session`); only allowed keys reach `request_kwargs` |
| Network.NewRequestKwargsPrecedence | espider/network.py:219-232 | the merged kwargs hold exactly the keys of the three sources; explicit kwargs win over named fields, which win over the spider's `request_kwargs` |
| Network.DefaultBoundArguments | espider/network.py:219-233 | with no method and no extra kwargs, `Request` is called with method `GET` and the given url and args |
| Network.DefaultRequestHasNoBody | espider/network.py:223-224 | without a body the `data` and `json` passed on are falsy |
| Network.DefaultRequestKwargs | espider/network.py:219-233 | without priority or extra kwargs, `Request` gets priority `None`, the given callback and the spider's `max_retry` |
| Network.NewRequestDefaults | espider/network.py:217-233 | with no method, body, priority or extra kwargs, `new_request` builds a `GET` request at priority 0 with the given url and callback and the spider's retry budget |
| Network.BodyRequestKwargs | espider/network.py:222-223 | with an explicit method and a truthy `data`, the method is bound by name (`GET` when empty) and `data` is passed on |
| Network.NewRequestWithDataIsPost | espider/network.py:217-233 | a truthy `data`, when `data` is an allowed key and the method is valid, yields a `POST` request that carries that data |
| Network.Instantiate | espider/network.py:254-255 | a registered class becomes an instance; an instance is kept |
| Network.DownloaderChain | espider/network.py:287-300 | the chain keeps one dict per extension and calls each at most once |
| Network.ChainStep | espider/network.py:288-300 | a truthy value is handed to the first extension, whose count is bumped; a falsy value skips it and leaves its dict unchanged |
| Network.ChainCountsAndStops | espider/network.py:288-300 | exactly the called extensions have their count raised by one; a chain that stops early holds a falsy value; a request always reaches the first extension |
| Network.ChainCallsInOrder | espider/network.py:288-298 | the i-th call is to the i-th registered extension, on a truthy value, with that extension's own arguments |
| Network.ChainThreadsValue | espider/network.py:288-298 | the first extension gets the popped request; each later one gets the previous one's result; the chain's value is the last result |
| Network.Started | espider/network.py:306-310 | a surviving request is started; a falsy value starts nothing |
| Network.Dispatch | espider/network.py:282-311 | one dict per extension is kept, and no more requests are started than were popped |
| Network.DispatchSnoc | espider/network.py:282-311 | dispatching one more popped request runs the chain once more, on the dicts as left; it starts what survives or fails the assertion |
| Network.DispatchWithoutExtensions | espider/network.py:284-311 | with no extensions every popped request is started, in pop order |
| Network.Downloader.constructor | espider/network.py:241-247 | empty queue, no running requests, download count 0, no extensions |
| Network.Downloader.Push | espider/network.py:249-251 | a `Request` is added to the queue; any other value fails the assertion and queues nothing |
| Network.Downloader.AddExtension | espider/network.py:253-264 | appends one dict with the instantiated extension, its arguments and count 0 |
| Network.Downloader.Finish | espider/network.py:266-274 | reports true exactly when the queue is empty |
| Network.Downloader.ApplyExtensions | espider/network.py:287-300 | the value and dicts left are those of the whole chain on the popped request |
| Network.Downloader.StartOne | espider/network.py:284-311 | runs the chain; if its value is allowed, the survivor is appended to `running_thread` and `download_number` rises by exactly that many; if not, nothing is started |
| Network.Downloader.PopAndStart | espider/network.py:282-311 | a queued request is removed and dispatched; the state is one dispatch step further |
| Network.Downloader.JoinThread | espider/network.py:324-327 | returns the running requests in FIFO order and leaves `running_thread` empty |
| Network.Downloader.DispatchAll | espider/network.py:277-311 | the state is the dispatch of the pop order; the popped requests and the remaining queue together are the old queue; success empties the queue |
| Network.Downloader.Start | espider/network.py:276-314 | `start` dispatches the queue in some pop order. The dicts and `download_number` are those of that dispatch. On success the queue is empty, and the joined requests are the old running ones followed by the survivors; on a failed assertion the survivors stay running |
| Dedup.SetStore.Ttl | espider/extensions.py:44 | `TTL`: -2 for a missing key, -1 for a key without expiry, positive otherwise |
| Dedup.SetStore.Expire | espider/extensions.py:45 | `EXPIRE` fails on a missing key, deletes the key for a non-positive timeout, and otherwise sets the expiry |
| Dedup.SetStore.Sadd | espider/extensions.py:53 | `SADD` adds the member and answers 1 exactly when it was new |
| Dedup.SetKeyOrDefault | espider/extensions.py:32 | the set key is the given one, or `urls` when none is given |
| Dedup.AddFingerprint | espider/extensions.py:41-54 | one `FilterStep`: a positive timeout gives an existing key without TTL that expiry, a negative one deletes such a key, an existing TTL is left alone; the fingerprint is added and reported new exactly when it was absent; with a non-negative timeout no set loses a member |
| Dedup.SecondStepDrops | espider/extensions.py:41-54 | with no timeout or a positive one, a fingerprint filtered twice in a row is dropped the second time and the sets do not change |
| Dedup.NegativeTimeoutPassesRepeats | espider/extensions.py:41-54 | with a negative timeout on a key without TTL, the same fingerprint passes again, the set being deleted and rebuilt |
| Dedup.Fingerprint | espider/extensions.py:60-75 | the intended fingerprint hashes the canonical URL followed by the truthy values of params, data, files, auth, cert and json, in that order |
| Dedup.FingerprintAsWrittenOutcome | espider/extensions.py:71-75 | as written, `_fingerprint` raises `AttributeError` exactly when one of the listed kwargs is truthy |
| Dedup.FingerprintAsWritten | espider/extensions.py:60-75 | the loop as written matches that outcome |
| Dedup.BodyValues | espider/extensions.py:71-73 | the fingerprint's body values: at most one per listed key, in key order (which ones: `NoBodyValues`, `BodyValuesOnlyReadListedKeys`) |
| Dedup.NoBodyValues | espider/extensions.py:71-73 | without truthy listed kwargs nothing is hashed beyond the URL |
| Dedup.BodyValuesOnlyReadListedKeys | espider/extensions.py:71-75 | the fingerprint depends only on the listed kwargs |
| Dedup.SameUrlNoBodySameFingerprint | espider/middlewares.py:84-93 | two requests with the same canonical URL and none of the listed kwargs set have the same fingerprint |
| Dedup.AsWrittenAgreesWithoutBody | espider/extensions.py:66-75 | without listed kwargs the code as written computes the intended fingerprint |
| Dedup.AsWrittenFailsOnData | espider/extensions.py:72-73 | `data='a=1'` makes the code as written fail, while the intended fingerprint hashes the URL and the data |
| Extensions.BaseProcess | espider/extensions.py:8-9 | `BaseExtension.process` returns `None`, a falsy value |
| Extensions.RequestFilter.constructor | espider/extensions.py:28-34 | Redis kwargs filtered to the known keys; set key defaulted; the filter level is `None` |
| Extensions.RequestFilter.Process | espider/extensions.py:36-58 | at another priority the request passes and the store is untouched. Otherwise the store makes one `FilterStep` on the (corrected) fingerprint, sets and expiries both stated, and the request passes exactly when the fingerprint was new; it is replaced by `None` when the fingerprint was known |
| Extensions.DefaultFilterPassesEveryRequest | espider/extensions.py:28-58 | a filter built by its constructor and a request built by `Request.__init__`: whenever the request can be built, `process` returns that very request and leaves the store untouched, because the filter's level stays `None` and a request's priority never is |
| Extensions.Bump | espider/extensions.py:95-96 | a missing count starts at 0; the count then rises by one; nothing else in the dict changes |
| Extensions.Keep | espider/extensions.py:93 | a truthy result replaces the target; a falsy one keeps it |
| Extensions.LoadFrom | espider/extensions.py:78-98 | the fold `_load_extensions` performs, from a given position: one dict per extension is kept (what it calls and returns: the lemmas below) |
| Extensions.LoadExtensions | espider/extensions.py:78-98 | the result and the updated dicts are those of the fold over the dicts in order |
| Extensions.LoadCounts | espider/extensions.py:78-98 | the fold stops exactly at the first extension without `process`, before calling it; every called extension's count rises by one, and the rest are untouched |
| Extensions.LoadPassesCurrentTarget | espider/extensions.py:79-93 | the first call gets the original target; each later call gets what the previous step kept |
| Extensions.LoadReturnsLastKept | espider/extensions.py:93-98 | a completed fold returns what the last step kept, or the target when nothing was called |
| Extensions.LoadKeepsTruthyTarget | espider/extensions.py:93 | a truthy target stays truthy through the fold: extensions cannot drop it |
| Extensions.BaseExtensionsKeepTarget | espider/extensions.py:78-98 | extensions that return `None` leave the target unchanged |
| Middlewares.BaseHook | espider/middlewares.py:8-25 | `process_retry` returns the same request; `process_error` re-raises the given exception; every other hook returns `None` |
| Middlewares.CountDrops | espider/middlewares.py:71-74 | the number of drops never exceeds the number of outcomes |
| Middlewares.RequestFilter.constructor | espider/middlewares.py:44-51 | Redis kwargs filtered; set key defaulted; the given timeout and level are kept; `number` starts at 0 |
| Middlewares.RequestFilter.ProcessRequest | espider/middlewares.py:53-76 | at another priority the request passes and neither the store nor `number` changes. Otherwise the store makes one `FilterStep` on the (corrected) fingerprint, sets and expiries both stated, and the request passes exactly when it was new; a known one answers `'drop'` and raises `number` by one; `number` always equals the drops so far |
| Middlewares.RequestFilter.Close | espider/middlewares.py:95-96 | `close_middleware` reports the drop count and changes nothing |
| Middlewares.RequestFilter.Handle | espider/middlewares.py:28-96 | `process_request` answers and updates the store and `number` exactly as `ProcessRequest` states; `close_middleware` answers `None`; the inherited hooks behave as `BaseMiddleware`'s and change nothing |
| Response.SpecialPatternMatchesSpecial | espider/parser/response.py:27-34 | the control-character pattern matches exactly the C0 controls except tab, LF and CR, plus DEL and the C1 block |
| Response.SubSpecialIsWithoutSpecial | espider/parser/response.py:201-208 | substituting that pattern drops exactly those characters |
| Response.WithoutSpecial | espider/parser/response.py:201-208 | the specification of the special-character removal: never longer than its input (what it keeps: the lemmas below) |
| Response.WithoutSpecialMembers | espider/parser/response.py:201-208 | a character survives exactly when it was present and is not special |
| Response.WithoutSpecialHasNone | espider/parser/response.py:201-208 | no special character is left |
| Response.WithoutSpecialKeepsClean | espider/parser/response.py:201-208 | a text with no special characters is unchanged |
| Response.WithoutSpecialIdempotent | espider/parser/response.py:201-208 | stripping twice is stripping once |
| Response.WhitespaceControlsKept | espider/parser/response.py:27-34 | tab, line feed and carriage return are kept |
| Response.DelSpecialCharacter | espider/parser/response.py:201-208 | `_del_special_character` drops exactly the special characters, keeps the rest in order, and leaves none |
| Response.SelectEncoding | espider/parser/response.py:99-104 | the first truthy of the custom, header and body-declared encodings, else the apparent one; a truthy custom encoding always wins |
| Response.SelectEncodingIdempotent | espider/parser/response.py:94-105 | reading the encoding again returns what the first read stored |
| Response.ContentTypeSpellings | espider/parser/response.py:118-120 | `Content-Type` and `content-type` name the same entry of the case-insensitive headers |
| Response.ContentType | espider/parser/response.py:118-120 | the content type is the value of the one `content-type` header, in whatever case it was sent, or empty when there is none |
| Response.HeadersEncoding | espider/parser/response.py:114-126 | an encoding comes from the headers exactly when the content type contains `application/json`; it is the declared charset, or `utf-8` when there is none |
| Response.IsHtmlIffSubstring | espider/parser/response.py:236-242 | `is_html` holds exactly when a content-type header, in any case, contains `text/html` at some position |
| Response.QuoteInsensitive | espider/parser/response.py:296-297 | a compiled pattern passes untouched; a string grows by three characters per quote |
| Response.RewriteLength | espider/parser/response.py:296-297 | each quote becomes the four characters `['"]`; every other character stays one |
| Response.RewriteAppend | espider/parser/response.py:296-297 | the rewrite works character by character: it distributes over concatenation |
| Response.RewriteWithoutQuotes | espider/parser/response.py:296-297 | a pattern without quotes is unchanged |
| Response.RewriteIgnoresQuoteKind | espider/parser/response.py:318-319 | after the rewrite, writing `'` or `"` in a pattern makes no difference |
| Response.QueryFromMap | espider/parser/response.py:326-335 | the result's keys are exactly the map's keys with a string or dict value; a string key's answer is `func(value)`, a dict key's is the query of that dict, and every other value is skipped |
| Response.QueryThenMap | espider/parser/response.py:326-335 | mapping the answers afterwards is querying with the composed function: the nesting is mirrored, and each string is queried once |
| Response.Response.constructor | espider/parser/response.py:38-52 | no encoding chosen and every cache empty |
| Response.Response.GetEncoding | espider/parser/response.py:94-105 | returns and stores the selected encoding |
| Response.Response.ClearCache | espider/parser/response.py:89-92 | the selector, text and json caches are emptied |
| Response.Response.SetEncoding | espider/parser/response.py:107-110 | the caches are cleared and the new encoding is stored |
| Response.Response.FreshText | espider/parser/response.py:210-221 | a freshly computed text has no special characters |
| Response.Response.Text | espider/parser/response.py:210-221 | a cached text is returned unchanged, without recomputation; otherwise the text is computed from the selected encoding and cached. The text never holds special characters |
| Response.Response.Json | espider/parser/response.py:223-229 | a cached json is returned untouched. Otherwise the encoding is forced to `encoding or 'utf-8'` through the setter, which empties every cache; the overridden `text` is then computed under that encoding and cached, the json is the parse of that text and is cached, and a text that cannot be decoded is the error |
| Response.Response.GetSelector | espider/parser/response.py:244-248 | the selector is built on `text` once and cached; a cached one is returned unchanged |
| Response.Response.Re | espider/parser/response.py:283-299 | the selector is queried with the quote-insensitive pattern |
| Response.Response.ReFirst | espider/parser/response.py:304-321 | the selector is queried with the quote-insensitive pattern and the given default |
| Spider.FirstNonRequest | espider/spider.py:30-32 | the position of the first yielded value that is not a `Request`; all values before it are requests |
| Spider.RequestsMembers | espider/spider.py:30-35 | a request is among those queued exactly when some yielded position holds it |
| Spider.RequestsOfRequests | espider/spider.py:30-35 | when every value is a request, the queued requests are the yielded ones, one for one |
| Spider.DefaultCallbackTwice | espider/spider.py:34 | defaulting the callback to `parse` twice is defaulting it once, so a request yielded twice keeps the callback it got first |
| Spider.DefaultAndPush | espider/spider.py:34-35 | the callback is defaulted and the request is pushed |
| Spider.QueueRequests | espider/spider.py:30-35 | the requests up to the first non-request are pushed in yield order, and each has its callback defaulted; the stopping position is returned |
| Spider.Seed | espider/spider.py:30-37 | a non-request raises after the earlier requests were pushed, and `start` never runs. Otherwise `start` runs once, after the last push, on the queue with the new requests added |
| Spider.Spider.constructor | espider/spider.py:10-18 | every custom setting is written onto the settings; a fresh, empty `Downloader()` is created |
| Spider.Spider.Run | espider/spider.py:23-37 | a downloader class is first replaced by a new instance; the yielded requests are then seeded into the downloader as `Seed` states |

## Left out

- The HTTP transport (`requests.request`, `Session.request`) is an oracle that gives the status of each attempt. The `Response` object built from it is reduced to its status and the attempt it came from.
- Threads are not modelled:
  - `Request` and `Spider` being threads;
  - `start()`, `join()` and `is_alive()`;
  - the `threading.active_count()` cap in `Downloader.start` (espider/network.py:278-280).

  The dispatch loop is sequential, and `running_thread` is a FIFO sequence.
- `time.sleep` delays (espider/network.py:308, 316-318), `print` messages and logging carry no state the model keeps.
- The priority queue's ordering is not modelled. `PriorityQueue` is not part of this model: the queue is a multiset, and pop may return any element.
- Network.Downloader.Start: states its result for the pop order it reports, not for priority order.
- Network.Downloader.Start: the extension call is one fixed function of (extension, value, arguments) for the whole run, so extensions are modelled as stateless and callable. Not captured: an extension object that keeps state between calls (a dedup callable answering a repeat differently); the `TypeError` raised when a registered object is not callable (the package's own `BaseExtension` and `RequestFilter` define only `process`); and object identity, since `Instantiate` maps every registration of a class to the same `Instance(cid)` where espider/network.py:255 builds a new object each time.
- The Redis client is not modelled: the server is named sets with an expiry per key. TTL countdown, connection setup and `redis_kwargs` beyond filtering are left out. `canonicalize_url` and `get_md5` are uninterpreted functions.
- Dedup.SetStore.Expire: with a non-positive timeout the key is deleted at once, as Redis does; a running countdown is not modelled.
- `timeout=None` is written as the integer 0 and `set_key=None` as the empty string. Both are falsy in the source, so the branches taken are the same.
- `args_split` is not part of this model. The callback is recorded with the argument tuple it would receive, not called.
- Network.RetryBudget: a non-integer truthy `max_retry` (a string, a float) reads as 0 here; in the source comparing it with 0 raises or compares as a float.
- Network.NormaliseMethod: `upper()` is modelled for ASCII letters only. Python's Unicode case mapping is not modelled.
- Helpers in `espider/utils` and `espider/settings.py` are not part of this model. The set `__REQUEST_KEYS__` is a parameter, and `url_to_dict`, `body_to_dict`, `json_to_dict`, `headers_to_dict`, `cookies_to_dict` and `dict_to_body` give already-converted values or are function parameters.
- The random User-Agent `_init_header` picks is a parameter of `BaseSpider.__init__`.
- Network.InitBaseSpider: models the evidently intended constructor, in which `_init_header` sees the chosen method and the converted `json`; the code as written is `Network.InitBaseSpiderAsWritten` (see Findings).
- The `BaseSpider` setters and the `body`, `json`, `headers`, `cookies`, `update*` and `request` helpers are not modelled; `new_request` takes their values as arguments.
- Extension dicts are not modelled key by key: `_load_extensions` and `start` choose among four call forms by whether `args` and `kwargs` are empty. The model has one call that receives both, and the oracle may depend on them.
- The assertion at espider/network.py:302-304 runs only when some extension is registered. The model checks it after every chain; with no extensions the value is the popped `Request`, so the outcome is the same.
- Extensions.RequestFilter.Process: hashes the corrected fingerprint; as written, a request with a truthy listed kwarg makes the filter raise `AttributeError` (see Findings, `Dedup.FingerprintAsWrittenOutcome`).
- Middlewares.RequestFilter.ProcessRequest: hashes the corrected fingerprint; as written it raises in the same case as the extension filter (see Findings).
- Filter priorities are compared as `Value`s: Python's `True == 1` and `1 == 1.0` across types are not modelled.
- Response.Response.Json: `complexjson.loads` is an oracle on the text; a JSON decoding error is not modelled. A parse that gives `None` is not cached, as in the source.
- Response headers are looked up case-insensitively for ASCII letters only, as keys lower-cased by `Lower`.
- Response parsing libraries are oracles, fixed per response: `UnicodeDammit` (through `_get_unicode_html`), `_absolute_links` and `_make_absolute`, the w3lib encoding detection, the base `requests` `text`, `complexjson.loads`, and the `Selector` with its `re`, `re_first`, `xpath` and `css`. `encoding_errors` and the `json` keyword arguments are not modelled.
- Response.Response.Re: states what the selector is asked, not what the regular expression matches.
- Response.Response.ReFirst: states what the selector is asked, not what the regular expression matches.
- The `xpath*`, `css*`, `find*` and `*_map` wrappers are not modelled beyond `_query_from_map`, which takes the query as a function. `extract`, `from_dict`, `to_dict`, `save_html` and `save_content` (file I/O) are not modelled.
- Spider.Spider.Run: `start_requests()` is given as the finite sequence of values it yields. The check at espider/spider.py:27 is always false, because a bound method is never a `Generator`, so it is omitted.
- Spider.Spider.constructor: `Spider.__init__` forwards its arguments to `BaseSpider.__init__`, which appears here as the already built `base` value; as written that call raises for a POST spider (`Network.InitBaseSpiderAsWritten`, see Findings).
- The example scripts `douban.py` and `espider/utils/test.py` are not modelled.

## Findings

| source | as written | input that shows it | evidently intended | confidence | as-written member | corrected member |
|---|---|---|---|---|---|---|
| espider/network.py:116 | `_init_header`, called while the dict for `self.spider` is being built (espider/network.py:97-103), reads `self.spider.get('json')` for a POST spider, before `self.spider` exists | `BaseSpider(url, data='a=1')`, or any explicit `method='POST'`: the constructor raises `AttributeError` | look at the converted `json` argument, so a POST spider gets a JSON or form content type | high; not executed | Network.InitBaseSpiderAsWritten, Network.PostSpiderFailsAsWritten | Network.InitBaseSpider, Network.BodySpiderContentType |
| espider/extensions.py:73 (the same line is espider/middlewares.py:91) | after testing `request.request_kwargs.get(arg)`, `_fingerprint` reads `request.requests_kwargs.get(arg)`, an attribute `Request` does not have | a request built with `data='a=1'` (or any truthy params/files/auth/cert/json): the filter raises `AttributeError` instead of answering | read the value from `request.request_kwargs`, so the fingerprint hashes the canonical URL plus the truthy listed values | high; not executed | Dedup.FingerprintAsWritten, Dedup.AsWrittenFailsOnData | Dedup.Fingerprint, Dedup.SameUrlNoBodySameFingerprint |
