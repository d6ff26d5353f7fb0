/**
 * The JSON-compatible dictionaries the analysers return and the orchestrator
 * reads by key. An object keeps its keys in insertion order, as a Python dict does.
 */
module JsonValue {
  import opened PyBase

  datatype Json =
    | JNull
    | JBool(b: bool)
    | JInt(i: int)
    | JReal(r: real)
    | JStr(s: string)
    | JArr(items: seq<Json>)
    | JObj(fields: seq<(string, Json)>)

  /** A dict never holds the same key twice. */
  ghost predicate UniqueKeys(fields: seq<(string, Json)>)
  {
    forall i, j :: 0 <= i < j < |fields| ==> fields[i].0 != fields[j].0
  }

  /** `d.get(k)`, for any dict with string keys. */
  function Get<V>(fields: seq<(string, V)>, k: string): (r: Option<V>)
    ensures r.None? <==> k !in Firsts(fields)
    ensures r.Some? ==> (k, r.value) in fields
  {
    if fields == [] then None
    else if fields[0].0 == k then Some(fields[0].1)
    else Get(fields[1..], k)
  }

  /** The first field with a key is the one `get` finds. */
  lemma {:induction false} GetAt(fields: seq<(string, Json)>, i: nat)
    requires i < |fields|
    requires forall j :: 0 <= j < i ==> fields[j].0 != fields[i].0
    ensures Get(fields, fields[i].0) == Some(fields[i].1)
  {
    if i > 0 {
      GetAt(fields[1..], i - 1);
    }
  }

  /** A key absent from `a` is looked up in `b`. */
  lemma {:induction false} GetAppend<V>(a: seq<(string, V)>, b: seq<(string, V)>, k: string)
    requires k !in Firsts(a)
    ensures Get(a + b, k) == Get(b, k)
  {
    if a != [] {
      var ab := a + b;
      assert ab[0] == a[0] && ab[1..] == a[1..] + b;
      assert Firsts(a) == [a[0].0] + Firsts(a[1..]);
      GetAppend(a[1..], b, k);
    } else {
      assert a + b == b;
    }
  }

  /** `d.get(k, default)`. */
  function GetOr(fields: seq<(string, Json)>, k: string, default: Json): Json
  {
    match Get(fields, k)
    case Some(v) => v
    case None => default
  }

  /** `d[k] = v`: an existing key keeps its place, a new key goes last. */
  function Put(fields: seq<(string, Json)>, k: string, v: Json): (r: seq<(string, Json)>)
    ensures Get(r, k) == Some(v)
    ensures forall k' :: k' != k ==> Get(r, k') == Get(fields, k')
  {
    if fields == [] then [(k, v)]
    else if fields[0].0 == k then
      var r := [(k, v)] + fields[1..];
      assert r[1..] == fields[1..];
      r
    else
      var rest := Put(fields[1..], k, v);
      var r := [fields[0]] + rest;
      assert r[1..] == rest;
      r
  }

  /** A key present before an assignment is still present after it. */
  lemma PutKeepsPresent(fields: seq<(string, Json)>, k: string, v: Json, key: string)
    requires Get(fields, key).Some?
    ensures Get(Put(fields, k, v), key).Some?
  {
  }

  /** Assignment never reorders keys: a known key stays where it is, a new one is appended. */
  lemma {:induction false} PutKeys(fields: seq<(string, Json)>, k: string, v: Json)
    ensures Firsts(Put(fields, k, v)) == if k in Firsts(fields) then Firsts(fields) else Firsts(fields) + [k]
  {
    if fields != [] {
      var ks := Firsts(fields[1..]);
      FirstsCons(fields[0], fields[1..]);
      assert fields == [fields[0]] + fields[1..];
      if fields[0].0 != k {
        PutKeys(fields[1..], k, v);
        var rest := Put(fields[1..], k, v);
        assert Put(fields, k, v) == [fields[0]] + rest;
        FirstsCons(fields[0], rest);
        if k !in ks {
          assert [fields[0].0] + (ks + [k]) == ([fields[0].0] + ks) + [k];
        }
      } else {
        assert Put(fields, k, v) == [(k, v)] + fields[1..];
        FirstsCons((k, v), fields[1..]);
      }
    }
  }

  /** Python truthiness of a value. */
  predicate Truthy(j: Json)
  {
    match j
    case JNull => false
    case JBool(b) => b
    case JInt(i) => i != 0
    case JReal(r) => r != 0.0
    case JStr(s) => s != []
    case JArr(items) => items != []
    case JObj(fields) => fields != []
  }

  /** `len(v)`, which raises `TypeError` for numbers, booleans and None. */
  function PyLen(j: Json): Option<nat>
  {
    match j
    case JStr(s) => Some(|s|)
    case JArr(items) => Some(|items|)
    case JObj(fields) => Some(|fields|)
    case _ => None
  }
}
