/**
 * The values `json.loads` produces, as far as the agents look at them: a
 * parsed object is a Python `dict`, kept here as its items in insertion order.
 * Parsing itself is not modelled; the agents take the parser as a parameter.
 * A dict holds each key once (`json.loads` keeps the last value of a repeated
 * key); `DistinctKeys` says so, and `Get` reads the one entry of a key. The
 * parser parameter is not required to keep keys distinct: on an object with
 * a repeated key, `Get` reads the first entry.
 */
module Json {
  import opened Wrappers
  import opened Text

  datatype Json =
    | JNull
    | JBool(b: bool)
    | JInt(n: int)
    | JStr(s: string)
    | JArr(items: seq<Json>)
    | JObj(fields: seq<(string, Json)>)

  /** The keys of a dict, in insertion order. */
  function Keys(fields: seq<(string, Json)>): (ks: seq<string>)
    ensures |ks| == |fields|
    ensures forall i :: 0 <= i < |fields| ==> ks[i] == fields[i].0
  {
    if fields == [] then [] else [fields[0].0] + Keys(fields[1..])
  }

  /** No key occurs twice, as in a Python `dict`. */
  predicate DistinctKeys(fields: seq<(string, Json)>)
  {
    forall i, j :: 0 <= i < j < |fields| ==> fields[i].0 != fields[j].0
  }

  /** `d.get(key)`: the value of the first entry with that key. */
  function Get(fields: seq<(string, Json)>, key: string): Option<Json>
  {
    if fields == [] then None
    else if fields[0].0 == key then Some(fields[0].1)
    else Get(fields[1..], key)
  }

  /** The value of a key is the one at the first index that holds it. */
  lemma GetAt(fields: seq<(string, Json)>, i: nat, key: string)
    requires i < |fields| && fields[i].0 == key
    requires forall j :: 0 <= j < i ==> fields[j].0 != key
    ensures Get(fields, key) == Some(fields[i].1)
  {
    if i > 0 {
      GetAt(fields[1..], i - 1, key);
    }
  }

  /** A key held by no entry has no value. */
  lemma GetMissing(fields: seq<(string, Json)>, key: string)
    requires forall j :: 0 <= j < |fields| ==> fields[j].0 != key
    ensures Get(fields, key) == None
  {
    if fields != [] {
      GetMissing(fields[1..], key);
    }
  }

  /** `d[key] = v`: an existing key keeps its place, a new one is added last. */
  function Put(fields: seq<(string, Json)>, key: string, v: Json): (r: seq<(string, Json)>)
    ensures key in Keys(fields) ==> Keys(r) == Keys(fields)
    ensures key !in Keys(fields) ==> Keys(r) == Keys(fields) + [key]
    ensures Get(r, key) == Some(v)
    ensures forall k :: k != key ==> Get(r, k) == Get(fields, k)
  {
    if fields == [] then [(key, v)]
    else if fields[0].0 == key then [(key, v)] + fields[1..]
    else [fields[0]] + Put(fields[1..], key, v)
  }

  /** `repr(v)`; strings are quoted with `'` and their characters are not escaped. */
  function Repr(v: Json): string
  {
    match v
    case JNull => "None"
    case JBool(b) => if b then "True" else "False"
    case JInt(n) => Decimal(n)
    case JStr(s) => "'" + s + "'"
    case JArr(items) =>
      "[" + Join(seq(|items|, i requires 0 <= i < |items| => Repr(items[i])), ", ") + "]"
    case JObj(fields) =>
      "{" + Join(seq(|fields|, i requires 0 <= i < |fields| =>
                   "'" + fields[i].0 + "': " + Repr(fields[i].1)), ", ") + "}"
  }

  /** `str(v)`: a string is itself, anything else its `repr`. */
  function Str(v: Json): (r: string)
    ensures v.JStr? ==> r == v.s
  {
    if v.JStr? then v.s else Repr(v)
  }

  /** Assigning to a key of a dict leaves a dict: the key is replaced in place or added once, last. */
  lemma PutKeepsDistinct(fields: seq<(string, Json)>, key: string, v: Json)
    requires DistinctKeys(fields)
    ensures DistinctKeys(Put(fields, key, v))
  {
    var r := Put(fields, key, v);
    var ks, ks' := Keys(fields), Keys(r);
    forall i, j | 0 <= i < j < |r|
      ensures r[i].0 != r[j].0
    {
      assert r[i].0 == ks'[i] && r[j].0 == ks'[j];
      if j < |fields| {
        assert ks'[i] == ks[i] && ks'[j] == ks[j];
        assert fields[i].0 == ks[i] && fields[j].0 == ks[j];
      } else {
        assert key !in ks && ks'[j] == key && ks'[i] == ks[i];
      }
    }
  }
}
