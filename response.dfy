/** The crawler's `Response` wrapper: encoding selection and its cache, the
    cached `text`/`json`/selector, control-character stripping, the
    quote-insensitive rewrite of regular expressions, and `_query_from_map`.

    What the HTTP library and the parsing libraries compute is fixed per
    response and given as constants of the object: the charset parser, the
    body-declared and apparent encodings, the library's own text and json
    for a given encoding, the HTML decoder, link absolutisation, and the
    selector's regular-expression queries. */
module Response {
  import opened PyValues

  // ---------------------------------------------------------------------
  // _del_special_character
  // ---------------------------------------------------------------------

  /** A regular-expression character class `[...]` of code-point ranges. */
  datatype CharClass = CharClass(ranges: seq<(int, int)>)

  predicate InClass(p: CharClass, c: char) {
    exists i :: 0 <= i < |p.ranges| && p.ranges[i].0 <= c as int <= p.ranges[i].1
  }

  /** `SPECIAL_CHARACTER_PATTERNS`: `[\x00-\x08\x0B\x0C\x0E-\x1F\x7F-\x9F]`. */
  const SpecialCharacterPatterns: seq<CharClass> :=
    [CharClass([(0x00, 0x08), (0x0B, 0x0B), (0x0C, 0x0C), (0x0E, 0x1F), (0x7F, 0x9F)])]

  /** The control characters the crawler removes, written out: C0 controls
      except tab, line feed and carriage return, then DEL and the C1 block. */
  predicate IsSpecial(c: char) {
    var n := c as int;
    n <= 0x08 || n == 0x0B || n == 0x0C || (0x0E <= n <= 0x1F) || (0x7F <= n <= 0x9F)
  }

  predicate NoSpecial(s: string) {
    forall i :: 0 <= i < |s| ==> !IsSpecial(s[i])
  }

  /** `pattern.sub("", text)` for a one-character class. */
  function Sub(p: CharClass, text: string): string
    decreases |text|
  {
    if text == [] then []
    else
      var c := text[|text| - 1];
      Sub(p, text[..|text| - 1]) + (if InClass(p, c) then [] else [c])
  }

  /** The patterns applied in turn. */
  function SubAll(ps: seq<CharClass>, text: string): string
    decreases |ps|
  {
    if ps == [] then text else Sub(ps[|ps| - 1], SubAll(ps[..|ps| - 1], text))
  }

  /** The text with every special character dropped, the rest kept in order. */
  function WithoutSpecial(text: string): (r: string)
    ensures |r| <= |text|
    decreases |text|
  {
    if text == [] then []
    else
      var c := text[|text| - 1];
      WithoutSpecial(text[..|text| - 1]) + (if IsSpecial(c) then [] else [c])
  }

  /** The one pattern matches exactly the special characters. */
  lemma SpecialPatternMatchesSpecial(c: char)
    ensures InClass(SpecialCharacterPatterns[0], c) <==> IsSpecial(c)
  {
    var p := SpecialCharacterPatterns[0];
    if IsSpecial(c) {
      var n := c as int;
      if n <= 0x08 { assert p.ranges[0].0 <= n <= p.ranges[0].1; }
      else if n == 0x0B { assert p.ranges[1].0 <= n <= p.ranges[1].1; }
      else if n == 0x0C { assert p.ranges[2].0 <= n <= p.ranges[2].1; }
      else if n <= 0x1F { assert p.ranges[3].0 <= n <= p.ranges[3].1; }
      else { assert p.ranges[4].0 <= n <= p.ranges[4].1; }
    }
  }

  /** Substituting the special pattern is dropping the special characters. */
  lemma {:induction false} SubSpecialIsWithoutSpecial(text: string)
    ensures Sub(SpecialCharacterPatterns[0], text) == WithoutSpecial(text)
    decreases |text|
  {
    if text != [] {
      SubSpecialIsWithoutSpecial(text[..|text| - 1]);
      SpecialPatternMatchesSpecial(text[|text| - 1]);
    }
  }

  /** A character survives exactly when it was there and is not special. */
  lemma {:induction false} WithoutSpecialMembers(text: string, c: char)
    ensures c in WithoutSpecial(text) <==> c in text && !IsSpecial(c)
    decreases |text|
  {
    if text != [] {
      var init := text[..|text| - 1];
      WithoutSpecialMembers(init, c);
      assert text == init + [text[|text| - 1]];
    }
  }

  /** No special character is left. */
  lemma {:induction false} WithoutSpecialHasNone(text: string)
    ensures NoSpecial(WithoutSpecial(text))
    decreases |text|
  {
    if text != [] {
      WithoutSpecialHasNone(text[..|text| - 1]);
    }
  }

  /** A text without special characters is left as it is. */
  lemma {:induction false} WithoutSpecialKeepsClean(text: string)
    requires NoSpecial(text)
    ensures WithoutSpecial(text) == text
    decreases |text|
  {
    if text != [] {
      WithoutSpecialKeepsClean(text[..|text| - 1]);
      assert text == text[..|text| - 1] + [text[|text| - 1]];
    }
  }

  /** Stripping twice is stripping once. */
  lemma WithoutSpecialIdempotent(text: string)
    ensures WithoutSpecial(WithoutSpecial(text)) == WithoutSpecial(text)
  {
    WithoutSpecialHasNone(text);
    WithoutSpecialKeepsClean(WithoutSpecial(text));
  }

  /** Tab, line feed and carriage return are kept. */
  lemma WhitespaceControlsKept(text: string)
    ensures '\t' in text ==> '\t' in WithoutSpecial(text)
    ensures '\n' in text ==> '\n' in WithoutSpecial(text)
    ensures '\r' in text ==> '\r' in WithoutSpecial(text)
  {
    WithoutSpecialMembers(text, '\t');
    WithoutSpecialMembers(text, '\n');
    WithoutSpecialMembers(text, '\r');
  }

  /** `_del_special_character`: each pattern in turn is replaced by "". */
  method DelSpecialCharacter(text: string) returns (r: string)
    ensures r == WithoutSpecial(text)
    ensures NoSpecial(r)
  {
    r := text;
    for i := 0 to |SpecialCharacterPatterns|
      invariant r == SubAll(SpecialCharacterPatterns[..i], text)
    {
      assert SpecialCharacterPatterns[..i + 1][..i] == SpecialCharacterPatterns[..i];
      r := Sub(SpecialCharacterPatterns[i], r);
    }
    assert SpecialCharacterPatterns[..1] == SpecialCharacterPatterns;
    assert SpecialCharacterPatterns[..0] == [];
    SubSpecialIsWithoutSpecial(text);
    WithoutSpecialHasNone(text);
  }

  // ---------------------------------------------------------------------
  // Encodings and headers
  // ---------------------------------------------------------------------

  /** `FAIL_ENCODING`. */
  const FailEncoding: string := "ISO-8859-1"

  /** The `encoding` getter's choice, Python's `or` chain: the first truthy
      of the custom, header and body-declared encodings, else the apparent one. */
  function SelectEncoding(current: Option<string>, header: Option<string>, body: Option<string>,
                          apparent: Option<string>): (r: Option<string>)
    ensures r == current || r == header || r == body || r == apparent
    ensures TruthyStr(current) ==> r == current
    ensures TruthyStr(r) <==> TruthyStr(current) || TruthyStr(header) || TruthyStr(body) || TruthyStr(apparent)
  {
    if TruthyStr(current) then current
    else if TruthyStr(header) then header
    else if TruthyStr(body) then body
    else apparent
  }

  /** Reading the encoding again gives the same answer: the stored choice
      is either truthy (and kept) or the apparent encoding again. */
  lemma SelectEncodingIdempotent(current: Option<string>, header: Option<string>, body: Option<string>,
                                 apparent: Option<string>)
    ensures var e := SelectEncoding(current, header, body, apparent);
            SelectEncoding(e, header, body, apparent) == e
  {
  }

  /** Response headers as the HTTP library's case-insensitive dict keeps
      them: each value under the lower-cased header name. */
  type Headers = map<string, string>

  /** `headers.get(name)`: the lookup ignores the case of `name`. */
  function HeaderGet(headers: Headers, name: string): Option<string> {
    if Lower(name) in headers then Some(headers[Lower(name)]) else None
  }

  /** Both spellings the source tries name the same header. */
  lemma ContentTypeSpellings()
    ensures Lower("Content-Type") == "content-type" && Lower("content-type") == "content-type"
  {
  }

  /** `headers.get("Content-Type") or headers.get("content-type")`, with
      `""` for `None`: both lookups hit the one `content-type` entry, so the
      second only repeats the first. */
  function ContentType(headers: Headers): (ct: string)
    ensures ct == (if "content-type" in headers then headers["content-type"] else "")
  {
    ContentTypeSpellings();
    var first := HeaderGet(headers, "Content-Type");
    if first.Some? && first.value != "" then first.value
    else if HeaderGet(headers, "content-type").Some? then HeaderGet(headers, "content-type").value
    else ""
  }

  /** `_headers_encoding`: only a JSON content type names an encoding, its
      declared charset or "utf-8". `charsetOf` is `http_content_type_encoding`. */
  function HeadersEncoding(headers: Headers, charsetOf: string -> Option<string>): (r: Option<string>)
    ensures r.Some? <==> ContentType(headers) != "" && Contains(ContentType(headers), "application/json")
    ensures r.Some? ==> r.value != ""
    ensures r.Some? && TruthyStr(charsetOf(ContentType(headers))) ==> r == charsetOf(ContentType(headers))
    ensures r.Some? && !TruthyStr(charsetOf(ContentType(headers))) ==> r == Some("utf-8")
  {
    var ct := ContentType(headers);
    if ct == "" then None
    else if Contains(ct, "application/json") then
      (if TruthyStr(charsetOf(ct)) then charsetOf(ct) else Some("utf-8"))
    else None
  }

  /** `is_html`: `text/html in headers.get("Content-Type", "")`. */
  predicate IsHtml(headers: Headers) {
    var ct := HeaderGet(headers, "Content-Type");
    Contains(if ct.Some? then ct.value else "", "text/html")
  }

  /** A response is HTML exactly when it has a content type, in any
      spelling, with `text/html` somewhere in it. */
  lemma IsHtmlIffSubstring(headers: Headers)
    ensures IsHtml(headers) <==>
      "content-type" in headers && exists i :: OccursAt(headers["content-type"], "text/html", i)
  {
    ContentTypeSpellings();
    var ct := HeaderGet(headers, "Content-Type");
    var v := if ct.Some? then ct.value else "";
    ContainsIsSubstring(v, "text/html");
    if "content-type" !in headers {
      assert v == "";
      assert !Contains(v, "text/html");
    }
  }

  // ---------------------------------------------------------------------
  // re / re_first
  // ---------------------------------------------------------------------

  /** A regular expression: a string, or an already compiled pattern. */
  datatype Pattern = PatStr(source: string) | PatCompiled(id: nat)

  predicate IsQuote(c: char) {
    c == '\'' || c == '"'
  }

  /** `['"]`, the class either quote is rewritten to. */
  const QuoteClass: string := "['\"]"

  /** `re.sub("['\"]", "['\"]", s)`. */
  function RewriteQuotes(s: string): string
    decreases |s|
  {
    if s == [] then []
    else RewriteQuotes(s[..|s| - 1]) + (if IsQuote(s[|s| - 1]) then QuoteClass else [s[|s| - 1]])
  }

  function QuoteCount(s: string): nat
    decreases |s|
  {
    if s == [] then 0 else QuoteCount(s[..|s| - 1]) + (if IsQuote(s[|s| - 1]) then 1 else 0)
  }

  /** The quote rewrite of `re`/`re_first`: strings only. */
  function QuoteInsensitive(p: Pattern): (r: Pattern)
    ensures p.PatCompiled? ==> r == p
    ensures p.PatStr? ==> r.PatStr? && |r.source| == |p.source| + 3 * QuoteCount(p.source)
  {
    match p
    case PatStr(s) =>
      RewriteLength(s);
      PatStr(RewriteQuotes(s))
    case PatCompiled(_) => p
  }

  /** Each quote becomes four characters, everything else one. */
  lemma {:induction false} RewriteLength(s: string)
    ensures |RewriteQuotes(s)| == |s| + 3 * QuoteCount(s)
    decreases |s|
  {
    if s != [] {
      RewriteLength(s[..|s| - 1]);
    }
  }

  /** The rewrite works character by character. */
  lemma {:induction false} RewriteAppend(a: string, b: string)
    ensures RewriteQuotes(a + b) == RewriteQuotes(a) + RewriteQuotes(b)
    decreases |b|
  {
    if b != [] {
      var b' := b[..|b| - 1];
      var c := b[|b| - 1];
      var tail := if IsQuote(c) then QuoteClass else [c];
      assert (a + b)[..|a + b| - 1] == a + b';
      assert (a + b)[|a + b| - 1] == c;
      assert RewriteQuotes(a + b) == RewriteQuotes(a + b') + tail;
      assert RewriteQuotes(b) == RewriteQuotes(b') + tail;
      RewriteAppend(a, b');
    } else {
      assert a + b == a;
    }
  }

  /** A string without quotes is not changed. */
  lemma {:induction false} RewriteWithoutQuotes(s: string)
    requires forall i :: 0 <= i < |s| ==> !IsQuote(s[i])
    ensures RewriteQuotes(s) == s
    decreases |s|
  {
    if s != [] {
      RewriteWithoutQuotes(s[..|s| - 1]);
      assert s == s[..|s| - 1] + [s[|s| - 1]];
    }
  }

  /** Exchanging single and double quotes. */
  function SwapQuote(c: char): char {
    if c == '\'' then '"' else if c == '"' then '\'' else c
  }

  function SwapQuotes(s: string): (r: string)
    ensures |r| == |s|
    ensures forall i :: 0 <= i < |s| ==> r[i] == SwapQuote(s[i])
  {
    seq(|s|, i requires 0 <= i < |s| => SwapQuote(s[i]))
  }

  /** Quote-insensitivity: writing `'` or `"` in a pattern makes no
      difference after the rewrite. */
  lemma {:induction false} RewriteIgnoresQuoteKind(s: string)
    ensures RewriteQuotes(SwapQuotes(s)) == RewriteQuotes(s)
    decreases |s|
  {
    if s != [] {
      var s' := s[..|s| - 1];
      assert SwapQuotes(s)[..|s| - 1] == SwapQuotes(s');
      RewriteIgnoresQuoteKind(s');
    }
  }

  // ---------------------------------------------------------------------
  // _query_from_map
  // ---------------------------------------------------------------------

  /** A query result: the answer for a string query, or a nested map. */
  datatype Answer<R> = Leaf(value: R) | Nested(fields: map<string, Answer<R>>)

  /** `_query_from_map(func, map)`: string values are queried, dict values
      are handled recursively, any other value is skipped. */
  function QueryFromMap<R>(func: string -> R, m: map<string, Value>): (r: map<string, Answer<R>>)
    ensures forall k :: k in r <==> k in m && (m[k].VStr? || m[k].VDict?)
    ensures forall k :: k in r ==> (r[k].Leaf? <==> m[k].VStr?)
    ensures forall k :: k in r && m[k].VStr? ==> r[k] == Leaf(func(m[k].s))
    ensures forall k :: k in r && m[k].VDict? ==> r[k] == Nested(QueryFromMap(func, m[k].entries))
    decreases VDict(m)
  {
    map k | k in m && (m[k].VStr? || m[k].VDict?) ::
      if m[k].VStr? then Leaf(func(m[k].s)) else Nested(QueryFromMap(func, m[k].entries))
  }

  /** Applying `g` to every leaf of an answer map. */
  function MapLeaves<R, S>(g: R -> S, r: map<string, Answer<R>>): (r': map<string, Answer<S>>)
    ensures r'.Keys == r.Keys
    decreases Nested(r)
  {
    map k | k in r :: if r[k].Leaf? then Leaf(g(r[k].value)) else Nested(MapLeaves(g, r[k].fields))
  }

  /** Querying with `func` and then transforming every answer with `g` is
      querying with `g` after `func`: the map's nesting is mirrored and each
      string is queried exactly once. */
  lemma {:induction false} QueryThenMap<R, S>(func: string -> R, g: R -> S, m: map<string, Value>)
    ensures MapLeaves(g, QueryFromMap(func, m)) == QueryFromMap(x => g(func(x)), m)
    decreases VDict(m)
  {
    var lhs := MapLeaves(g, QueryFromMap(func, m));
    var rhs := QueryFromMap(x => g(func(x)), m);
    forall k | k in lhs
      ensures lhs[k] == rhs[k]
    {
      if m[k].VDict? {
        QueryThenMap(func, g, m[k].entries);
      }
    }
  }

  // ---------------------------------------------------------------------
  // Response
  // ---------------------------------------------------------------------

  /** The selector over a text. */
  datatype Selector = Selector(text: string)

  /** `_get_unicode_html` could not detect an encoding. */
  datatype DecodeError = EncodingNotDetected

  class Response {
    const headers: Headers
    /** `http_content_type_encoding`. */
    const charsetOf: string -> Option<string>
    /** `html_body_declared_encoding(self.content)`. */
    const bodyDeclared: Option<string>
    /** `self.apparent_encoding`. */
    const apparent: Option<string>
    /** The HTTP library's `text` under a given encoding. */
    const libraryText: Option<string> -> string
    /** `_get_unicode_html(self.content)`; `None` when detection fails. */
    const unicodeHtml: Option<string>
    /** `_absolute_links`. */
    const absolutize: string -> string
    /** `complexjson.loads`, which the HTTP library's `json` applies to `text`. */
    const jsonLoads: string -> Value
    /** The selector's `re` and `re_first`. */
    const selectorRe: (Selector, Pattern, bool) -> seq<string>
    const selectorReFirst: (Selector, Pattern, Value, bool) -> Value

    /** `_encoding`. */
    var encoding: Option<string>
    var cachedText: Option<string>
    /** `_cached_json`; `VNone` is an empty cache. */
    var cachedJson: Value
    var cachedSelector: Option<Selector>

    /** A cached text has no special characters, and a cached selector is
        built on the cached text. */
    ghost predicate Valid()
      reads this
    {
      && (cachedText.Some? ==> NoSpecial(cachedText.value))
      && (cachedSelector.Some? ==> cachedText.Some? && cachedSelector.value.text == cachedText.value)
    }

    /** `Response(response)`: no encoding chosen, every cache empty. */
    constructor (headers: Headers, charsetOf: string -> Option<string>,
                 bodyDeclared: Option<string>, apparent: Option<string>,
                 libraryText: Option<string> -> string, unicodeHtml: Option<string>,
                 absolutize: string -> string, jsonLoads: string -> Value,
                 selectorRe: (Selector, Pattern, bool) -> seq<string>,
                 selectorReFirst: (Selector, Pattern, Value, bool) -> Value)
      ensures Valid()
      ensures this.headers == headers && this.charsetOf == charsetOf && this.bodyDeclared == bodyDeclared
      ensures this.apparent == apparent && this.libraryText == libraryText && this.unicodeHtml == unicodeHtml
      ensures this.absolutize == absolutize && this.jsonLoads == jsonLoads
      ensures this.selectorRe == selectorRe && this.selectorReFirst == selectorReFirst
      ensures encoding == None && cachedText == None && cachedJson == VNone && cachedSelector == None
    {
      this.headers := headers;
      this.charsetOf := charsetOf;
      this.bodyDeclared := bodyDeclared;
      this.apparent := apparent;
      this.libraryText := libraryText;
      this.unicodeHtml := unicodeHtml;
      this.absolutize := absolutize;
      this.jsonLoads := jsonLoads;
      this.selectorRe := selectorRe;
      this.selectorReFirst := selectorReFirst;
      encoding := None;
      cachedText := None;
      cachedJson := VNone;
      cachedSelector := None;
    }

    /** What the `encoding` getter returns and stores, given `_encoding`. */
    function Choose(current: Option<string>): Option<string>
      reads this
    {
      SelectEncoding(current, HeadersEncoding(headers, charsetOf), bodyDeclared, apparent)
    }

    /** The `encoding` getter. */
    method GetEncoding() returns (e: Option<string>)
      modifies this`encoding
      ensures e == encoding == Choose(old(encoding))
    {
      encoding := SelectEncoding(encoding, HeadersEncoding(headers, charsetOf), bodyDeclared, apparent);
      e := encoding;
    }

    /** `__clear_cache`. */
    method ClearCache()
      modifies this`cachedText, this`cachedJson, this`cachedSelector
      ensures Valid()
      ensures cachedText == None && cachedJson == VNone && cachedSelector == None
    {
      cachedSelector := None;
      cachedText := None;
      cachedJson := VNone;
    }

    /** The `encoding` setter: caches cleared, the value stored. */
    method SetEncoding(val: Option<string>)
      modifies this`encoding, this`cachedText, this`cachedJson, this`cachedSelector
      ensures Valid()
      ensures encoding == val && cachedText == None && cachedJson == VNone && cachedSelector == None
    {
      ClearCache();
      encoding := val;
    }

    /** The text computed on a cache miss, starting from `_encoding == current`. */
    function FreshText(current: Option<string>): (r: Result<string, DecodeError>)
      reads this
      ensures r.Ok? ==> NoSpecial(r.value)
    {
      var e := Choose(current);
      var raw := if TruthyStr(e) && Upper(e.value) != FailEncoding then Some(libraryText(e)) else unicodeHtml;
      if raw.None? then Err(EncodingNotDetected)
      else
        WithoutSpecialHasNone(absolutize(raw.value));
        Ok(WithoutSpecial(absolutize(raw.value)))
    }

    /** The `text` property: on a miss the encoding is read (and stored),
        the body decoded, links made absolute and special characters
        removed; the result is cached and later reads return it unchanged. */
    method Text() returns (r: Result<string, DecodeError>)
      requires Valid()
      modifies this`encoding, this`cachedText
      ensures Valid()
      ensures old(cachedText).Some? ==> r == Ok(old(cachedText).value) && encoding == old(encoding)
                                        && cachedText == old(cachedText)
      ensures old(cachedText).None? ==> encoding == Choose(old(encoding)) && r == FreshText(old(encoding))
                                        && cachedText == (if r.Ok? then Some(r.value) else None)
      ensures r.Ok? ==> NoSpecial(r.value)
    {
      if cachedText.Some? {
        return Ok(cachedText.value);
      }
      ghost var e0 := encoding;
      var e := GetEncoding();
      var useLibrary := false;
      if TruthyStr(e) {
        var e' := GetEncoding();
        SelectEncodingIdempotent(e0, HeadersEncoding(headers, charsetOf), bodyDeclared, apparent);
        useLibrary := Upper(e'.value) != FailEncoding;
      }
      var raw: string;
      if useLibrary {
        var e'' := GetEncoding();
        SelectEncodingIdempotent(e0, HeadersEncoding(headers, charsetOf), bodyDeclared, apparent);
        raw := libraryText(e'');
      } else if unicodeHtml.Some? {
        raw := unicodeHtml.value;
      } else {
        return Err(EncodingNotDetected);
      }
      var t := absolutize(raw);
      t := DelSpecialCharacter(t);
      cachedText := Some(t);
      r := Ok(t);
    }

    /** The `json` property: on a miss the encoding is forced to
        `encoding or "utf-8"` through the setter, which empties every cache;
        the library then parses `text`, which this class overrides, so the
        text is decoded and cached on the way. A text that cannot be decoded
        is the error. */
    method Json() returns (r: Result<Value, DecodeError>)
      requires Valid()
      modifies this`encoding, this`cachedText, this`cachedJson, this`cachedSelector
      ensures Valid()
      ensures old(cachedJson) != VNone ==>
        && r == Ok(old(cachedJson)) && encoding == old(encoding)
        && cachedText == old(cachedText) && cachedJson == old(cachedJson)
        && cachedSelector == old(cachedSelector)
      ensures old(cachedJson) == VNone ==>
        var e := Choose(old(encoding));
        var forced := if TruthyStr(e) then e else Some("utf-8");
        var t := FreshText(forced);
        && encoding == forced && cachedSelector == None
        && (r.Ok? <==> t.Ok?)
        && (r.Ok? ==> r.value == jsonLoads(t.value) && cachedJson == r.value && cachedText == Some(t.value))
        && (r.Err? ==> r.error == t.error && cachedJson == VNone && cachedText == None)
    {
      if cachedJson != VNone {
        return Ok(cachedJson);
      }
      var e := GetEncoding();
      SetEncoding(if TruthyStr(e) then e else Some("utf-8"));
      var t := Text();
      if t.Err? {
        return Err(t.error);
      }
      cachedJson := jsonLoads(t.value);
      r := Ok(cachedJson);
    }

    /** The `selector` property: built on `text` once and cached. */
    method GetSelector() returns (r: Result<Selector, DecodeError>)
      requires Valid()
      modifies this`encoding, this`cachedText, this`cachedSelector
      ensures Valid()
      ensures old(cachedSelector).Some? ==>
        && r == Ok(old(cachedSelector).value) && cachedText == old(cachedText)
        && encoding == old(encoding) && cachedSelector == old(cachedSelector)
      ensures r.Ok? ==> cachedSelector == Some(r.value) && cachedText == Some(r.value.text)
      ensures old(cachedText).Some? ==> cachedText == old(cachedText)
      ensures old(cachedSelector).None? && old(cachedText).None? ==>
        var t := FreshText(old(encoding));
        (r.Ok? <==> t.Ok?) && (r.Ok? ==> r.value == Selector(t.value))
    {
      if cachedSelector.Some? {
        return Ok(cachedSelector.value);
      }
      var t := Text();
      if t.Err? {
        return Err(t.error);
      }
      cachedSelector := Some(Selector(t.value));
      r := Ok(cachedSelector.value);
    }

    /** `re`: a string pattern is made quote-insensitive before the
        selector runs it; a compiled one is passed as it is. */
    method Re(regex: Pattern, replaceEntities: bool) returns (r: Result<seq<string>, DecodeError>)
      requires Valid()
      modifies this`encoding, this`cachedText, this`cachedSelector
      ensures Valid()
      ensures r.Ok? ==> cachedSelector.Some?
                        && r.value == selectorRe(cachedSelector.value, QuoteInsensitive(regex), replaceEntities)
    {
      var p := QuoteInsensitive(regex);
      var s := GetSelector();
      if s.Err? {
        return Err(s.error);
      }
      r := Ok(selectorRe(s.value, p, replaceEntities));
    }

    /** `re_first`, with the same rewrite. */
    method ReFirst(regex: Pattern, default: Value, replaceEntities: bool) returns (r: Result<Value, DecodeError>)
      requires Valid()
      modifies this`encoding, this`cachedText, this`cachedSelector
      ensures Valid()
      ensures r.Ok? ==> cachedSelector.Some?
                        && r.value == selectorReFirst(cachedSelector.value, QuoteInsensitive(regex), default, replaceEntities)
    {
      var p := QuoteInsensitive(regex);
      var s := GetSelector();
      if s.Err? {
        return Err(s.error);
      }
      r := Ok(selectorReFirst(s.value, p, default, replaceEntities));
    }
  }
}
