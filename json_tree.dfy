/**
  The generic document tree a JSON or YAML loader produces: scalars, ordered
  sequences and mappings from string keys to values. A mapping keeps its keys
  in document order, as a Python dict does, so that the extractors can be
  stated in terms of traversal order.
 */
module JsonTree {

  datatype Json =
    | JNull
    | JBool(b: bool)
    | JInt(n: int)
    | JStr(s: string)
    | JArr(items: seq<Json>)
    | JObj(fields: seq<(string, Json)>)

  /** The `{}` default of `.get(key, {})`. */
  const EmptyObj: Json := JObj([])

  /** The `[]` default of `.get(key, [])`. */
  const EmptyArr: Json := JArr([])

  /** The keys of a mapping, in order (Python's `.keys()`). */
  function Keys<V>(fields: seq<(string, V)>): seq<string>
  {
    seq(|fields|, i requires 0 <= i < |fields| => fields[i].0)
  }

  predicate HasKey<V>(fields: seq<(string, V)>, key: string)
  {
    exists i :: 0 <= i < |fields| && fields[i].0 == key
  }

  /** True when `j` is a mapping that holds `key`. */
  predicate HasKeyIn(j: Json, key: string)
  {
    j.JObj? && HasKey(j.fields, key)
  }

  /** No key occurs twice: the one shape a Python dict can take. */
  predicate DistinctKeys<V>(fields: seq<(string, V)>)
  {
    forall a, b :: 0 <= a < b < |fields| ==> fields[a].0 != fields[b].0
  }

  /** Every mapping of the tree, at any depth, has distinct keys. */
  predicate DictTree(j: Json)
    decreases j
  {
    match j
    case JArr(items) => forall i :: 0 <= i < |items| ==> DictTree(items[i])
    case JObj(fields) =>
      DistinctKeys(fields) && forall i :: 0 <= i < |fields| ==> DictTree(fields[i].1)
    case _ => true
  }

  /** Python truthiness: `None`, `False`, `0` and empty containers are false. */
  predicate Truthy(j: Json)
  {
    match j
    case JNull => false
    case JBool(b) => b
    case JInt(n) => n != 0
    case JStr(s) => |s| > 0
    case JArr(items) => |items| > 0
    case JObj(fields) => |fields| > 0
  }

  /** Position of the first entry with key `key`, or `|fields|` when there is none. */
  function KeyIndex<V>(fields: seq<(string, V)>, key: string): (k: nat)
    ensures k <= |fields|
    ensures k < |fields| ==> fields[k].0 == key
    ensures forall i :: 0 <= i < k ==> fields[i].0 != key
    decreases |fields|
  {
    if |fields| == 0 then 0
    else if fields[0].0 == key then 0
    else 1 + KeyIndex(fields[1..], key)
  }

  /** `dict.get(key, default)` on the entries of a mapping. */
  function Lookup<V>(fields: seq<(string, V)>, key: string, default: V): V
  {
    var k := KeyIndex(fields, key);
    if k < |fields| then fields[k].1 else default
  }

  /** `obj.get(key, default)`; only a mapping has `.get`. */
  function Get(obj: Json, key: string, default: Json): Json
    requires obj.JObj?
  {
    Lookup(obj.fields, key, default)
  }

  /** The lookup gives the default for a missing key and a stored value otherwise. */
  lemma LookupFound<V>(fields: seq<(string, V)>, key: string, default: V)
    ensures !HasKey(fields, key) ==> Lookup(fields, key, default) == default
    ensures HasKey(fields, key) ==> (key, Lookup(fields, key, default)) in fields
  {
    var k := KeyIndex(fields, key);
    if k < |fields| {
      assert fields[k] == (key, fields[k].1);
    }
  }

  /** With distinct keys, looking up the key of entry `i` finds entry `i`. */
  lemma LookupAt<V>(fields: seq<(string, V)>, i: nat, default: V)
    requires DistinctKeys(fields) && i < |fields|
    ensures Lookup(fields, fields[i].0, default) == fields[i].1
  {
  }

  /** A value read out of a dict tree is again a dict tree. */
  lemma GetDictTree(obj: Json, key: string, default: Json)
    requires obj.JObj? && DictTree(obj) && DictTree(default)
    ensures DictTree(Get(obj, key, default))
  {
    var k := KeyIndex(obj.fields, key);
    if k < |obj.fields| {
      assert DictTree(obj.fields[k].1);
    }
  }
}
