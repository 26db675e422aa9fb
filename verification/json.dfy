/** JSON values as the request body decoder hands them to the plans API, with
    the parts of Python's object model the handlers rely on: truthiness,
    iteration, and a dict seen as its ordered list of entries. */
module Json {

  datatype Option<+T> = None | Some(value: T)

  /** A decoded JSON value. Numbers keep Python's int/float split. */
  datatype Json =
    | JNull
    | JBool(b: bool)
    | JInt(i: int)
    | JFloat(f: real)
    | JStr(s: string)
    | JArr(items: seq<Json>)
    | JObj(fields: seq<(string, Json)>)

  /** Python's `bool(v)`: a value is falsy exactly when it is one of the
      seven empty values of its kind. */
  function Truthy(v: Json): (t: bool)
    ensures !t <==> v in {JNull, JBool(false), JInt(0), JFloat(0.0), JStr(""), JArr([]), JObj([])}
  {
    match v
    case JNull => false
    case JBool(b) => b
    case JInt(i) => i != 0
    case JFloat(f) => f != 0.0
    case JStr(s) => |s| > 0
    case JArr(items) => |items| > 0
    case JObj(fields) => |fields| > 0
  }

  /** Values `for x in v` accepts; anything else raises TypeError. */
  predicate Iterable(v: Json) {
    v.JArr? || v.JStr? || v.JObj?
  }

  /** What `for x in v` yields: list items, one-character strings, or keys. */
  function Iterate(v: Json): (xs: seq<Json>)
    requires Iterable(v)
    ensures v.JArr? ==> xs == v.items
    ensures v.JStr? ==> |xs| == |v.s| && forall i :: 0 <= i < |xs| ==> xs[i] == JStr([v.s[i]])
    ensures v.JObj? ==> |xs| == |v.fields| && forall i :: 0 <= i < |xs| ==> xs[i] == JStr(v.fields[i].0)
  {
    match v
    case JArr(items) => items
    case JStr(s) => seq(|s|, i requires 0 <= i < |s| => JStr([s[i]]))
    case JObj(fields) => seq(|fields|, i requires 0 <= i < |fields| => JStr(fields[i].0))
  }

  /** A Python dict in insertion order. */
  type Entries = seq<(string, Json)>

  /** A dict never holds the same key twice. */
  predicate DistinctKeys(o: Entries) {
    forall i, j :: 0 <= i < j < |o| ==> o[i].0 != o[j].0
  }

  predicate HasKey(o: Entries, k: string) {
    exists i :: 0 <= i < |o| && o[i].0 == k
  }

  lemma HasKeyTail(o: Entries, k: string)
    requires HasKey(o, k) && o[0].0 != k
    ensures HasKey(o[1..], k)
  {
    var i :| 0 <= i < |o| && o[i].0 == k;
    assert o[1..][i - 1].0 == k;
  }

  lemma HasKeyInit(o: Entries, k: string)
    requires HasKey(o, k) && o[|o| - 1].0 != k
    ensures HasKey(o[..|o| - 1], k)
  {
    var i :| 0 <= i < |o| && o[i].0 == k;
    assert o[..|o| - 1][i].0 == k;
  }

  /** Position of the first entry whose key is `k`. */
  function KeyIndex(o: Entries, k: string): (i: nat)
    requires HasKey(o, k)
    ensures i < |o| && o[i].0 == k
    ensures forall j :: 0 <= j < i ==> o[j].0 != k
  {
    if o[0].0 == k then 0
    else
      HasKeyTail(o, k);
      1 + KeyIndex(o[1..], k)
  }

  /** `o[k]`; a missing key is a KeyError, so callers must know it is there. */
  function Lookup(o: Entries, k: string): Json
    requires HasKey(o, k)
  {
    o[KeyIndex(o, k)].1
  }

  /** In a dict, the entry at position `m` is the one its key finds. */
  lemma KeyIndexAt(o: Entries, m: nat)
    requires DistinctKeys(o) && m < |o|
    ensures HasKey(o, o[m].0)
    ensures KeyIndex(o, o[m].0) == m
    ensures Lookup(o, o[m].0) == o[m].1
  {
  }

  /** Looking a key up in a dict is not disturbed by entries added after it. */
  lemma LookupPrefix(o: Entries, n: nat, k: string)
    requires DistinctKeys(o) && n <= |o| && HasKey(o[..n], k)
    ensures HasKey(o, k)
    ensures KeyIndex(o, k) == KeyIndex(o[..n], k)
    ensures Lookup(o, k) == Lookup(o[..n], k)
  {
    var m := KeyIndex(o[..n], k);
    assert o[m] == o[..n][m];
    KeyIndexAt(o, m);
  }
}
