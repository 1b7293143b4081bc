/**
 * The JSON values the backend's request handlers and bounds store pass around, with
 * the Python operations they apply to them: dictionary lookup, assignment and `del`
 * (a dictionary keeps its keys in insertion order), truthiness, `len`, `in`, iteration,
 * indexing and `list(...)`. An operation Python would reject with a `TypeError`,
 * `KeyError`, `IndexError` or `AttributeError` returns `None`.
 */
module Json {
  import opened Wrappers

  datatype Json =
    | JNull
    | JBool(b: bool)
    | JInt(i: int)
    | JFloat(r: real)
    | JStr(s: string)
    | JList(items: seq<Json>)
    | JObj(fields: seq<(string, Json)>)

  /** The key positions of a dictionary, first occurrence first. */
  function Keys(fs: seq<(string, Json)>): (ks: seq<string>)
    ensures |ks| == |fs|
  {
    if |fs| == 0 then [] else [fs[0].0] + Keys(fs[1..])
  }

  /** `d.get(k)`: the first value stored under `k`. */
  function Lookup(fs: seq<(string, Json)>, k: string): (r: Option<Json>)
    ensures r.None? <==> k !in Keys(fs)
  {
    if |fs| == 0 then None
    else if fs[0].0 == k then Some(fs[0].1)
    else Lookup(fs[1..], k)
  }

  /** `d[k] = v`: an existing key keeps its position, a new one goes last. */
  function Put(fs: seq<(string, Json)>, k: string, v: Json): (r: seq<(string, Json)>)
    ensures Lookup(r, k) == Some(v)
  {
    if |fs| == 0 then [(k, v)]
    else if fs[0].0 == k then [(k, v)] + fs[1..]
    else [fs[0]] + Put(fs[1..], k, v)
  }

  /** `del d[k]`. */
  function Remove(fs: seq<(string, Json)>, k: string): (r: seq<(string, Json)>)
    ensures Lookup(r, k).None?
    ensures |r| <= |fs|
  {
    if |fs| == 0 then []
    else if fs[0].0 == k then Remove(fs[1..], k)
    else [fs[0]] + Remove(fs[1..], k)
  }

  /** Assignment and deletion leave every other key's value alone; assignment keeps the key order and appends a new key. */
  lemma {:induction false} PutRemoveOthers(fs: seq<(string, Json)>, k: string, v: Json, j: string)
    requires j != k
    ensures Lookup(Put(fs, k, v), j) == Lookup(fs, j)
    ensures Lookup(Remove(fs, k), j) == Lookup(fs, j)
    ensures Keys(Put(fs, k, v)) == if k in Keys(fs) then Keys(fs) else Keys(fs) + [k]
  {
    if |fs| > 0 {
      PutRemoveOthers(fs[1..], k, v, j);
      if fs[0].0 != k {
        assert Keys(Put(fs, k, v)) == [fs[0].0] + Keys(Put(fs[1..], k, v));
      }
    }
  }

  /** `bool(v)`. */
  predicate Truthy(v: Json) {
    match v
    case JNull => false
    case JBool(b) => b
    case JInt(i) => i != 0
    case JFloat(r) => r != 0.0
    case JStr(s) => |s| > 0
    case JList(items) => |items| > 0
    case JObj(fields) => |fields| > 0
  }

  /** `len(v)`; numbers, booleans and `None` have none. */
  function Len(v: Json): Option<nat> {
    match v
    case JStr(s) => Some(|s|)
    case JList(items) => Some(|items|)
    case JObj(fields) => Some(|fields|)
    case _ => None
  }

  /** Python's `needle in hay` on strings. */
  predicate IsSubstring(needle: string, hay: string) {
    (|needle| <= |hay| && hay[..|needle|] == needle) || (|hay| > 0 && IsSubstring(needle, hay[1..]))
  }

  /** `key in v` for a string key: a dictionary key, a list element, or a substring. */
  function Contains(v: Json, key: string): Option<bool> {
    match v
    case JObj(fields) => Some(key in Keys(fields))
    case JList(items) => Some(JStr(key) in items)
    case JStr(s) => Some(IsSubstring(key, s))
    case _ => None
  }

  function Chars(s: string): (r: seq<Json>)
    ensures |r| == |s| && forall i :: 0 <= i < |s| ==> r[i] == JStr([s[i]])
  {
    seq(|s|, i requires 0 <= i < |s| => JStr([s[i]]))
  }

  /** What `for x in v` visits, which is also `list(v)`: the elements, the one-character strings, or the keys. */
  function Elements(v: Json): Option<seq<Json>> {
    match v
    case JList(items) => Some(items)
    case JStr(s) => Some(Chars(s))
    case JObj(fields) => Some(seq(|fields|, i requires 0 <= i < |fields| => JStr(fields[i].0)))
    case _ => None
  }

  /** `v[i]` for a non-negative index. */
  function Index(v: Json, i: nat): (r: Option<Json>)
    ensures r.Some? ==> Elements(v).Some? && i < |Elements(v).value| && r.value == Elements(v).value[i]
  {
    match v
    case JList(items) => if i < |items| then Some(items[i]) else None
    case JStr(s) => if i < |s| then Some(JStr([s[i]])) else None
    case _ => None
  }

  /** `list(v)`. */
  function ToList(v: Json): (r: Option<Json>)
    ensures r.Some? <==> Elements(v).Some?
    ensures r.Some? ==> r.value == JList(Elements(v).value)
  {
    var e := Elements(v);
    if e.Some? then Some(JList(e.value)) else None
  }

  /** `d.get(k, default)`; `None` when `v` is not a dictionary. */
  function Get(v: Json, k: string, default: Json): (r: Option<Json>)
    ensures r.Some? <==> v.JObj?
    ensures v.JObj? && k in Keys(v.fields) ==> r == Lookup(v.fields, k)
    ensures v.JObj? && k !in Keys(v.fields) ==> r == Some(default)
  {
    if v.JObj? then
      var x := Lookup(v.fields, k);
      Some(if x.Some? then x.value else default)
    else None
  }

  /** `d[k]` read; `None` on a missing key or a non-dictionary. */
  function At(v: Json, k: string): (r: Option<Json>)
    ensures r.Some? <==> v.JObj? && k in Keys(v.fields)
  {
    if v.JObj? then Lookup(v.fields, k) else None
  }

  /** In a two-key dictionary with distinct keys, each key finds the value stored beside it. */
  lemma Lookup2(k0: string, v0: Json, k1: string, v1: Json)
    requires k0 != k1
    ensures Lookup([(k0, v0), (k1, v1)], k0) == Some(v0) && Lookup([(k0, v0), (k1, v1)], k1) == Some(v1)
  {
    var fs := [(k0, v0), (k1, v1)];
    LookupPair(fs, 0);
    LookupPair(fs, 1);
  }

  /** In a three-key dictionary with distinct keys, each key finds the value stored beside it. */
  lemma Lookup3(k0: string, v0: Json, k1: string, v1: Json, k2: string, v2: Json)
    requires k0 != k1 && k0 != k2 && k1 != k2
    ensures var fs := [(k0, v0), (k1, v1), (k2, v2)];
      Lookup(fs, k0) == Some(v0) && Lookup(fs, k1) == Some(v1) && Lookup(fs, k2) == Some(v2)
  {
    var fs := [(k0, v0), (k1, v1), (k2, v2)];
    LookupPair(fs, 0);
    LookupPair(fs, 1);
    LookupPair(fs, 2);
  }

  /** In a four-key dictionary with distinct keys, each key finds the value stored beside it. */
  lemma Lookup4(k0: string, v0: Json, k1: string, v1: Json, k2: string, v2: Json, k3: string, v3: Json)
    requires k0 != k1 && k0 != k2 && k0 != k3 && k1 != k2 && k1 != k3 && k2 != k3
    ensures var fs := [(k0, v0), (k1, v1), (k2, v2), (k3, v3)];
      Lookup(fs, k0) == Some(v0) && Lookup(fs, k1) == Some(v1) && Lookup(fs, k2) == Some(v2) && Lookup(fs, k3) == Some(v3)
  {
    var fs := [(k0, v0), (k1, v1), (k2, v2), (k3, v3)];
    LookupPair(fs, 0);
    LookupPair(fs, 1);
    LookupPair(fs, 2);
    LookupPair(fs, 3);
  }

  /** In a five-key dictionary with distinct keys, each key finds the value stored beside it. */
  lemma Lookup5(k0: string, v0: Json, k1: string, v1: Json, k2: string, v2: Json, k3: string, v3: Json,
                k4: string, v4: Json)
    requires k0 != k1 && k0 != k2 && k0 != k3 && k0 != k4 && k1 != k2 && k1 != k3 && k1 != k4
    requires k2 != k3 && k2 != k4 && k3 != k4
    ensures var fs := [(k0, v0), (k1, v1), (k2, v2), (k3, v3), (k4, v4)];
      Lookup(fs, k0) == Some(v0) && Lookup(fs, k1) == Some(v1) && Lookup(fs, k2) == Some(v2) && Lookup(fs, k3) == Some(v3)
      && Lookup(fs, k4) == Some(v4)
  {
    var fs := [(k0, v0), (k1, v1), (k2, v2), (k3, v3), (k4, v4)];
    LookupPair(fs, 0);
    LookupPair(fs, 1);
    LookupPair(fs, 2);
    LookupPair(fs, 3);
    LookupPair(fs, 4);
  }

  /** In a dictionary without repeated keys, looking up a key finds the value stored beside it. */
  lemma {:induction false} LookupPair(fs: seq<(string, Json)>, i: nat)
    requires i < |fs|
    requires forall a, b :: 0 <= a < b < |fs| ==> fs[a].0 != fs[b].0
    ensures Lookup(fs, fs[i].0) == Some(fs[i].1)
  {
    if i > 0 {
      LookupPair(fs[1..], i - 1);
    }
  }
}
