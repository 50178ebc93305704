/** Python values as the crawler sees them: dynamically typed keyword
    arguments, truthiness, `x or y`, `dict.get`, and the handful of `str`
    operations the crawler relies on (`upper`, `in`, `strip`, `join`). */
module PyValues {

  datatype Option<+T> = None | Some(value: T)

  datatype Result<+T, +E> = Ok(value: T) | Err(error: E)

  /** Python's `AttributeError`: reading an attribute the object does not have. */
  datatype AttributeError = AttributeError(name: string)

  /** A Python value, as far as the crawler inspects it. Functions, sessions
      and other objects are opaque and told apart by an identity. */
  datatype Value =
    | VNone
    | VBool(b: bool)
    | VInt(i: int)
    | VStr(s: string)
    | VTuple(items: seq<Value>)
    | VList(elems: seq<Value>)
    | VDict(entries: map<string, Value>)
    | VFunc(fid: nat)
    | VSession(sid: nat)
    | VObject(oid: nat)

  /** Python truthiness: `None`, `False`, `0` and empty containers are falsy;
      functions, sessions and other objects are truthy. */
  predicate Truthy(v: Value) {
    match v
    case VNone => false
    case VBool(b) => b
    case VInt(i) => i != 0
    case VStr(s) => s != ""
    case VTuple(xs) => xs != []
    case VList(xs) => xs != []
    case VDict(m) => m != map[]
    case _ => true
  }

  /** `a or b`: the first operand when it is truthy, otherwise the second. */
  function Or(a: Value, b: Value): (r: Value)
    ensures Truthy(a) ==> r == a
    ensures !Truthy(a) ==> r == b
  {
    if Truthy(a) then a else b
  }

  /** `d.get(k)`: `None` for a missing key. */
  function Get(d: map<string, Value>, k: string): (r: Value)
    ensures k in d ==> r == d[k]
    ensures k !in d ==> r == VNone
  {
    if k in d then d[k] else VNone
  }

  /** Truthiness of an optional string (`None` or `""` are falsy). */
  predicate TruthyStr(s: Option<string>) {
    s.Some? && s.value != ""
  }

  /** `str.upper` on ASCII letters; every other character is kept. */
  function UpperChar(c: char): char {
    if 'a' <= c <= 'z' then (c as int - 32) as char else c
  }

  function Upper(s: string): (r: string)
    ensures |r| == |s|
    ensures forall i :: 0 <= i < |s| ==> r[i] == UpperChar(s[i])
  {
    if s == [] then [] else [UpperChar(s[0])] + Upper(s[1..])
  }

  /** `str.lower` on ASCII letters; every other character is kept. */
  function LowerChar(c: char): char {
    if 'A' <= c <= 'Z' then (c as int + 32) as char else c
  }

  function Lower(s: string): string {
    seq(|s|, i requires 0 <= i < |s| => LowerChar(s[i]))
  }

  /** `sub in s` for strings. */
  predicate Contains(s: string, sub: string)
    decreases |s|
  {
    |sub| <= |s| && (s[..|sub|] == sub || (s != [] && Contains(s[1..], sub)))
  }

  /** `sub` occurs in `s` starting at position `i`. */
  predicate OccursAt(s: string, sub: string, i: int) {
    0 <= i <= |s| - |sub| && s[i..i + |sub|] == sub
  }

  /** An occurrence after the first character is an occurrence in the tail. */
  lemma OccursInTail(s: string, sub: string, i: int)
    requires s != [] && 0 <= i
    ensures OccursAt(s, sub, i + 1) <==> OccursAt(s[1..], sub, i)
  {
    if i + 1 <= |s| - |sub| {
      assert s[i + 1..i + 1 + |sub|] == s[1..][i..i + |sub|];
    }
  }

  /** `sub in s` holds exactly when `sub` occurs in `s` at some position. */
  lemma {:induction false} ContainsIsSubstring(s: string, sub: string)
    ensures Contains(s, sub) <==> exists i :: OccursAt(s, sub, i)
    decreases |s|
  {
    if |sub| <= |s| {
      if s[..|sub|] == sub {
        assert OccursAt(s, sub, 0);
      } else if s != [] {
        ContainsIsSubstring(s[1..], sub);
        if Contains(s[1..], sub) {
          var i :| OccursAt(s[1..], sub, i);
          OccursInTail(s, sub, i);
        } else {
          forall i | OccursAt(s, sub, i)
            ensures false
          {
            if i > 0 {
              OccursInTail(s, sub, i - 1);
            }
          }
        }
      }
    }
  }

  /** `sep.join(parts)`. */
  function Join(sep: string, parts: seq<string>): string
    decreases |parts|
  {
    if parts == [] then ""
    else if |parts| == 1 then parts[0]
    else parts[0] + sep + Join(sep, parts[1..])
  }

  /** `s.lstrip(c)` for a single character `c`. */
  function StripLeft(s: string, c: char): (r: string)
    ensures r == [] || r[0] != c
    ensures |r| <= |s| && r == s[|s| - |r|..]
    ensures forall k :: 0 <= k < |s| - |r| ==> s[k] == c
    decreases |s|
  {
    if s != [] && s[0] == c then StripLeft(s[1..], c) else s
  }

  /** `s.rstrip(c)` for a single character `c`. */
  function StripRight(s: string, c: char): (r: string)
    ensures r == [] || r[|r| - 1] != c
    ensures |r| <= |s| && r == s[..|r|]
    ensures forall k :: |r| <= k < |s| ==> s[k] == c
    decreases |s|
  {
    if s != [] && s[|s| - 1] == c then StripRight(s[..|s| - 1], c) else s
  }

  /** `s.strip(c)`: every leading and trailing `c` removed. */
  function Strip(s: string, c: char): (r: string)
    ensures r == [] || (r[0] != c && r[|r| - 1] != c)
  {
    var l := StripLeft(s, c);
    var r := StripRight(l, c);
    assert r != [] ==> r[0] == l[0];
    r
  }

  /** `r` is `s[i..j]` and everything of `s` outside it is `c`. */
  predicate InfixBetweenRuns(s: string, c: char, r: string, i: int, j: int) {
    && 0 <= i <= j <= |s| && r == s[i..j]
    && (forall k :: 0 <= k < i ==> s[k] == c)
    && (forall k :: j <= k < |s| ==> s[k] == c)
  }

  /** `strip` removes exactly the runs of `c` at both ends: the result is
      the part of `s` between them, and it neither starts nor ends with `c`. */
  lemma StripRemovesEndRuns(s: string, c: char)
    ensures var r := Strip(s, c);
      && (r == [] || (r[0] != c && r[|r| - 1] != c))
      && exists i, j :: InfixBetweenRuns(s, c, r, i, j)
  {
    var l := StripLeft(s, c);
    var i := |s| - |l|;
    var r := StripRight(l, c);
    var j := i + |r|;
    assert Strip(s, c) == r;
    assert l == s[i..];
    assert r == s[i..j];
    forall k | j <= k < |s|
      ensures s[k] == c
    {
      assert s[k] == l[k - i];
    }
    assert InfixBetweenRuns(s, c, r, i, j);
  }

  /** Stripping a string that already has no `c` at either end changes nothing. */
  lemma StripUntouched(s: string, c: char)
    requires s == [] || (s[0] != c && s[|s| - 1] != c)
    ensures Strip(s, c) == s
  {
  }

  /** Appending one `c` to a string with no `c` at either end is undone by strip. */
  lemma {:induction false} StripDropsOneTrailing(s: string, c: char)
    requires s != [] && s[0] != c && s[|s| - 1] != c
    ensures Strip(s + [c], c) == s
  {
    assert StripLeft(s + [c], c) == s + [c];
    assert (s + [c])[..|s + [c]| - 1] == s;
    assert StripRight(s + [c], c) == StripRight(s, c) == s;
  }
}
