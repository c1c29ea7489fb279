/**
 * JSON values as the Python code sees them after `json.loads`: `None`, booleans,
 * integers, strings, lists and dicts. A dict keeps its insertion order, as a Python
 * dict does, so it is an association list; lookups take the first entry for a key.
 */
module Json {
  import opened Wrappers

  datatype Json =
    | Null
    | Bool(b: bool)
    | Num(n: int)
    | Str(s: string)
    | Arr(items: seq<Json>)
    | Obj(members: seq<(string, Json)>)

  /** The keys of a dict, in insertion order. */
  function Keys(m: seq<(string, Json)>): (ks: seq<string>)
    ensures |ks| == |m| && forall i :: 0 <= i < |m| ==> ks[i] == m[i].0
  {
    if m == [] then [] else [m[0].0] + Keys(m[1..])
  }

  /** `key in d` followed by `d[key]`: the value stored under `key`, if any. */
  function Lookup(m: seq<(string, Json)>, key: string): Option<Json>
  {
    if m == [] then None
    else if m[0].0 == key then Some(m[0].1)
    else Lookup(m[1..], key)
  }

  /** The lookup finds a value exactly when the key is present, and the value it finds
      is the one stored with the first entry for that key. */
  lemma LookupSpec(m: seq<(string, Json)>, key: string)
    ensures Lookup(m, key).None? <==> key !in Keys(m)
    ensures Lookup(m, key).Some? ==>
              exists i :: 0 <= i < |m| && m[i] == (key, Lookup(m, key).value) && key !in Keys(m[..i])
  {
    LookupNone(m, key);
    if Lookup(m, key).Some? {
      LookupFirst(m, key);
    }
  }

  lemma {:induction false} LookupNone(m: seq<(string, Json)>, key: string)
    ensures Lookup(m, key).None? <==> key !in Keys(m)
  {
    if m != [] {
      LookupNone(m[1..], key);
      assert Keys(m) == [m[0].0] + Keys(m[1..]);
    }
  }

  lemma {:induction false} LookupFirst(m: seq<(string, Json)>, key: string)
    requires Lookup(m, key).Some?
    ensures exists i :: 0 <= i < |m| && m[i] == (key, Lookup(m, key).value) && key !in Keys(m[..i])
  {
    if m[0].0 == key {
      assert m[0] == (key, Lookup(m, key).value) && Keys(m[..0]) == [];
    } else {
      LookupFirst(m[1..], key);
      var i :| 0 <= i < |m[1..]| && m[1..][i] == (key, Lookup(m, key).value) && key !in Keys(m[1..][..i]);
      assert m[1..][..i] == m[1..i + 1];
      assert Keys(m[..i + 1]) == [m[0].0] + Keys(m[1..i + 1]) by {
        assert m[..i + 1][1..] == m[1..i + 1];
      }
      assert m[i + 1] == (key, Lookup(m, key).value);
    }
  }

  /** The entry at `i` is found when no earlier entry has its key. */
  lemma {:induction false} LookupAt(m: seq<(string, Json)>, i: nat, key: string)
    requires i < |m| && m[i].0 == key && forall j :: 0 <= j < i ==> m[j].0 != key
    ensures Lookup(m, key) == Some(m[i].1)
  {
    if i > 0 {
      LookupAt(m[1..], i - 1, key);
    }
  }

  /** `d.get(key)`: the stored value, or `None` when the key is absent. */
  function Get(m: seq<(string, Json)>, key: string): Json
  {
    match Lookup(m, key)
    case Some(v) => v
    case None => Null
  }

  /** `d.get(key, default)` */
  function GetOr(m: seq<(string, Json)>, key: string, default: Json): Json
  {
    match Lookup(m, key)
    case Some(v) => v
    case None => default
  }

  /** Python truthiness: `None`, `False`, `0`, `""`, `[]` and `{}` are false. */
  predicate Truthy(j: Json) {
    match j
    case Null => false
    case Bool(b) => b
    case Num(n) => n != 0
    case Str(s) => s != ""
    case Arr(xs) => xs != []
    case Obj(m) => m != []
  }

  /** Python `a or b` */
  function Or(a: Json, b: Json): Json
  {
    if Truthy(a) then a else b
  }

  /** A list of strings as JSON. */
  function Texts(xs: seq<string>): (js: seq<Json>)
    ensures |js| == |xs| && forall i :: 0 <= i < |xs| ==> js[i] == Str(xs[i])
  {
    seq(|xs|, i requires 0 <= i < |xs| => Str(xs[i]))
  }
}
