/**
 * JSON-like Python values (None, bool, int, str, list, dict) with the Python
 * operations the core applies to them: `dict.get`, truthiness, `== False`,
 * `str()` and `repr()`. Dicts are association lists in insertion order.
 */
module Json {
  import opened Wrappers
  import opened Strings

  datatype Json =
    | Null
    | Bool(b: bool)
    | Num(n: int)
    | Str(s: string)
    | Arr(items: seq<Json>)
    | Obj(entries: seq<(string, Json)>)

  type Dict = seq<(string, Json)>

  /** `key` is a key of `d` (Python `key in d`). */
  predicate HasKey(d: Dict, key: string) {
    exists i :: 0 <= i < |d| && d[i].0 == key
  }

  /** The keys of `d`, in order. */
  function Keys(d: Dict): (ks: seq<string>)
    ensures |ks| == |d|
    ensures forall i :: 0 <= i < |d| ==> ks[i] == d[i].0
  {
    if d == [] then [] else [d[0].0] + Keys(d[1..])
  }

  /** No key occurs twice, as in a real Python dict. */
  predicate DistinctKeys(d: Dict) {
    forall i, j :: 0 <= i < j < |d| ==> d[i].0 != d[j].0
  }

  /** `d.get(key)`: the value stored under the first occurrence of `key`. */
  function Get(d: Dict, key: string): (r: Option<Json>)
    ensures r.Some? <==> HasKey(d, key)
    ensures r.Some? ==> exists i :: 0 <= i < |d| && d[i] == (key, r.value)
                                    && forall j :: 0 <= j < i ==> d[j].0 != key
  {
    if d == [] then None
    else if d[0].0 == key then
      assert d[0] == (key, d[0].1);
      Some(d[0].1)
    else
      var r := Get(d[1..], key);
      assert HasKey(d[1..], key) <==> HasKey(d, key) by {
        if HasKey(d, key) {
          var i :| 0 <= i < |d| && d[i].0 == key;
          assert d[1..][i - 1].0 == key;
        }
      }
      if r.Some? then
        var i :| 0 <= i < |d[1..]| && d[1..][i] == (key, r.value)
                 && forall j :: 0 <= j < i ==> d[1..][j].0 != key;
        assert d[i + 1] == (key, r.value);
        assert forall j :: 0 <= j < i + 1 ==> d[j].0 != key by {
          forall j | 0 <= j < i + 1 ensures d[j].0 != key {
            if j > 0 { assert d[j] == d[1..][j - 1]; }
          }
        }
        r
      else
        r
  }

  /** In a dict without repeated keys, each entry is what `get` finds for its key. */
  lemma GetDistinct(d: Dict, i: int)
    requires DistinctKeys(d) && 0 <= i < |d|
    ensures Get(d, d[i].0) == Some(d[i].1)
  {
    assert HasKey(d, d[i].0);
    var r := Get(d, d[i].0);
    var j :| 0 <= j < |d| && d[j] == (d[i].0, r.value) && forall k :: 0 <= k < j ==> d[k].0 != d[i].0;
    assert j == i;
  }

  /** Looking a key up in `d + e` searches `d` first, then `e`. */
  lemma {:induction false} GetConcat(d: Dict, e: Dict, k: string)
    ensures Get(d + e, k) == if Get(d, k).Some? then Get(d, k) else Get(e, k)
    decreases |d|
  {
    if d == [] {
      assert d + e == e;
    } else {
      assert (d + e)[0] == d[0];
      assert (d + e)[1..] == d[1..] + e;
      if d[0].0 != k {
        GetConcat(d[1..], e, k);
      }
    }
  }

  /** `d.get(key, default)`. */
  function GetOr(d: Dict, key: string, default: Json): Json {
    Get(d, key).GetOr(default)
  }

  /** The entry for `key` when `d` has one: `if key in d: out[key] = d[key]`. */
  function Copied(d: Dict, key: string): (r: Dict)
    ensures forall k :: Get(r, k) == if k == key then Get(d, key) else None
  {
    match Get(d, key)
    case Some(v) => [(key, v)]
    case None => []
  }

  lemma HasKeyCons(e: (string, Json), d: Dict, k: string)
    ensures HasKey([e] + d, k) <==> e.0 == k || HasKey(d, k)
  {
    assert ([e] + d)[0] == e;
    if HasKey(d, k) {
      var i :| 0 <= i < |d| && d[i].0 == k;
      assert ([e] + d)[i + 1].0 == k;
    }
    if HasKey([e] + d, k) && e.0 != k {
      var i :| 0 <= i < |[e] + d| && ([e] + d)[i].0 == k;
      assert d[i - 1].0 == k;
    }
  }

  /** `d[key] = v`: overwrite the first entry for `key`, or append one. */
  function Put(d: Dict, key: string, v: Json): (r: Dict)
    ensures Get(r, key) == Some(v)
    ensures forall k :: k != key ==> Get(r, k) == Get(d, k)
    ensures forall k :: HasKey(r, k) <==> HasKey(d, k) || k == key
  {
    if d == [] then [(key, v)]
    else
      assert d == [d[0]] + d[1..];
      assert forall k :: HasKey(d, k) <==> d[0].0 == k || HasKey(d[1..], k) by {
        forall k ensures HasKey(d, k) <==> d[0].0 == k || HasKey(d[1..], k) {
          HasKeyCons(d[0], d[1..], k);
        }
      }
      if d[0].0 == key then
        assert forall k :: HasKey([(key, v)] + d[1..], k) <==> key == k || HasKey(d[1..], k) by {
          forall k ensures HasKey([(key, v)] + d[1..], k) <==> key == k || HasKey(d[1..], k) {
            HasKeyCons((key, v), d[1..], k);
          }
        }
        [(key, v)] + d[1..]
      else
        var tail := Put(d[1..], key, v);
        assert forall k :: HasKey([d[0]] + tail, k) <==> d[0].0 == k || HasKey(tail, k) by {
          forall k ensures HasKey([d[0]] + tail, k) <==> d[0].0 == k || HasKey(tail, k) {
            HasKeyCons(d[0], tail, k);
          }
        }
        [d[0]] + tail
  }

  /** `d.update(extra)`: the entries of `extra` stored into `d` one by one. */
  function Update(d: Dict, extra: Dict): (r: Dict)
    ensures forall k :: !HasKey(extra, k) ==> Get(r, k) == Get(d, k)
    decreases |extra|
  {
    if extra == [] then d
    else
      var r := Update(Put(d, extra[0].0, extra[0].1), extra[1..]);
      assert forall k :: !HasKey(extra, k) ==> !HasKey(extra[1..], k) && k != extra[0].0 by {
        forall k | HasKey(extra[1..], k) ensures HasKey(extra, k) {
          var i :| 0 <= i < |extra[1..]| && extra[1..][i].0 == k;
          assert extra[i + 1].0 == k;
        }
      }
      r
  }

  /** Python truthiness (`if v:`). */
  predicate Truthy(j: Json) {
    match j
    case Null => false
    case Bool(b) => b
    case Num(n) => n != 0
    case Str(s) => s != ""
    case Arr(items) => items != []
    case Obj(entries) => entries != []
  }

  /** Python `a or b`. */
  function Or(a: Json, b: Json): Json {
    if Truthy(a) then a else b
  }

  /** Python `v == False`, which also holds for the integer 0. */
  predicate EqualsFalse(j: Json) {
    j == Bool(false) || j == Num(0)
  }

  /** Python `str(v)`. */
  function PyStr(j: Json): string
    decreases j, 0
  {
    match j
    case Null => "None"
    case Bool(b) => if b then "True" else "False"
    case Num(n) => IntToString(n)
    case Str(s) => s
    case Arr(items) =>
      "[" + Join(", ", seq(|items|, i requires 0 <= i < |items| => Repr(items[i]))) + "]"
    case Obj(entries) =>
      "{" + Join(", ", seq(|entries|, i requires 0 <= i < |entries| =>
                          "'" + entries[i].0 + "': " + Repr(entries[i].1))) + "}"
  }

  /**
   * Python `repr(v)`: strings are quoted with single quotes; escaping of quotes
   * and control characters inside them is not modelled.
   */
  function Repr(j: Json): string
    decreases j, 1
  {
    if j.Str? then "'" + j.s + "'" else PyStr(j)
  }

  /** `type(v).__name__`. */
  function TypeName(v: Json): string {
    match v
    case Null => "NoneType"
    case Bool(_) => "bool"
    case Num(_) => "int"
    case Str(_) => "str"
    case Arr(_) => "list"
    case Obj(_) => "dict"
  }

  /** The AttributeError text of calling `.get` on a value that is not a dict. */
  function NoGet(v: Json): string {
    "'" + TypeName(v) + "' object has no attribute 'get'"
  }

  /**
   * `d.get(outer, {}).get(inner, default)`: the inner lookup raises
   * AttributeError when the outer value is not a dict.
   */
  function NestedGet(d: Dict, outer: string, inner: string, default: Json): (r: Result<Json>)
    ensures r.Ok? <==> GetOr(d, outer, Obj([])).Obj?
    ensures r.Ok? ==> r.value == GetOr(GetOr(d, outer, Obj([])).entries, inner, default)
  {
    var o := GetOr(d, outer, Obj([]));
    if o.Obj? then Ok(GetOr(o.entries, inner, default))
    else Raised(NoGet(o))
  }

  /**
   * `v[key]` for a string key: a dict raises KeyError (whose text is the
   * quoted key) when the key is missing; other values raise TypeError.
   */
  function Subscript(v: Json, key: string): (r: Result<Json>)
    ensures v.Obj? && Get(v.entries, key).Some? ==> r == Ok(Get(v.entries, key).value)
    ensures r.Ok? ==> v.Obj? && HasKey(v.entries, key)
  {
    match v
    case Obj(e) => if Get(e, key).Some? then Ok(Get(e, key).value) else Raised("'" + key + "'")
    case Arr(_) => Raised("list indices must be integers or slices, not str")
    case Str(_) => Raised("string indices must be integers, not 'str'")
    case _ => Raised("'" + TypeName(v) + "' object is not subscriptable")
  }

  /**
   * The elements a `for` loop visits: a list's items, a dict's keys, a
   * string's one-character strings; other values are not iterable.
   */
  function Iterate(v: Json): (r: Result<seq<Json>>)
    ensures v.Arr? ==> r == Ok(v.items)
    ensures r.Ok? <==> PyLen(v).Some?
    ensures r.Ok? ==> PyLen(v) == Some(|r.value|)
  {
    match v
    case Arr(items) => Ok(items)
    case Obj(e) => Ok(seq(|e|, i requires 0 <= i < |e| => Str(e[i].0)))
    case Str(s) => Ok(seq(|s|, i requires 0 <= i < |s| => Str([s[i]])))
    case _ => Raised("'" + TypeName(v) + "' object is not iterable")
  }

  /** Python `len(v)`; None where `len` raises TypeError. */
  function PyLen(v: Json): Option<nat> {
    match v
    case Arr(items) => Some(|items|)
    case Obj(entries) => Some(|entries|)
    case Str(s) => Some(|s|)
    case _ => None
  }

  /** The payload a tool call returned, before any interpretation. */
  datatype RawResult =
    | RawDict(entries: Dict)                      // a dict
    | RawText(text: string, parsed: Option<Json>)  // a str; `parsed` is json.loads(text) if it parses
    | RawNone                                     // None
    | RawValue(value: Json)                       // a list, number or bool

  /** Python `str(raw)`. */
  function RawStr(raw: RawResult): string {
    match raw
    case RawDict(d) => PyStr(Obj(d))
    case RawText(t, _) => t
    case RawNone => "None"
    case RawValue(v) => PyStr(v)
  }

  /** The raw result as a JSON-like value. */
  function RawJson(raw: RawResult): Json {
    match raw
    case RawDict(d) => Obj(d)
    case RawText(t, _) => Str(t)
    case RawNone => Null
    case RawValue(v) => v
  }
}
