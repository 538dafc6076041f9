/** The stock Option datatype. */
module Wrappers {
  datatype Option<+T> = None | Some(value: T)
}

/**
 JSON values as the gateway sees them after parsing, together with the two
 pieces of Python semantics the router relies on: `dict.get(key, default)`
 on a JSON object and the truthiness test `if not x`.
 */
module JsonValue {
  import opened Wrappers

  /** A parsed JSON value. A float is kept as a decimal token
      mantissa * 10^exponent, so that no float arithmetic is needed. */
  datatype Json =
    | JNull
    | JBool(b: bool)
    | JInt(i: int)
    | JFloat(mantissa: int, exponent: int)
    | JStr(s: string)
    | JArr(items: seq<Json>)
    | JObj(fields: seq<(string, Json)>)

  /** The entries of a JSON object (a Python dict), in insertion order. */
  type Fields = seq<(string, Json)>

  /** Python truthiness: falsy exactly for None, False, zero, "", [] and {};
      a float is falsy only when its mantissa is zero. */
  predicate Truthy(v: Json): (t: bool)
    ensures !t <==>
      || v == JNull || v == JBool(false) || v == JInt(0) || (v.JFloat? && v.mantissa == 0)
      || v == JStr("") || v == JArr([]) || v == JObj([])
  {
    match v
    case JNull => false
    case JBool(b) => b
    case JInt(i) => i != 0
    case JFloat(m, _) => m != 0
    case JStr(s) => s != ""
    case JArr(items) => items != []
    case JObj(fields) => fields != []
  }

  /** The keys of an object, in order. */
  function Keys(fields: Fields): seq<string> {
    seq(|fields|, i requires 0 <= i < |fields| => fields[i].0)
  }

  predicate Distinct<T(==)>(s: seq<T>) {
    forall i, j :: 0 <= i < j < |s| ==> s[i] != s[j]
  }

  /** A Python dict never holds a key twice. */
  predicate DistinctKeys(fields: Fields) {
    Distinct(Keys(fields))
  }

  lemma KeysTail(fields: Fields)
    requires fields != []
    ensures Keys(fields) == [fields[0].0] + Keys(fields[1..])
  {
  }

  lemma DistinctKeysTail(fields: Fields)
    requires fields != [] && DistinctKeys(fields)
    ensures DistinctKeys(fields[1..])
    ensures fields[0].0 !in Keys(fields[1..])
  {
    KeysTail(fields);
    var ks := Keys(fields);
    forall i, j | 0 <= i < j < |fields| - 1
      ensures Keys(fields[1..])[i] != Keys(fields[1..])[j]
    {
      assert ks[i + 1] != ks[j + 1];
    }
    forall i | 0 <= i < |fields| - 1 ensures Keys(fields[1..])[i] != fields[0].0 {
      assert ks[0] != ks[i + 1];
    }
  }

  /** Subscripting a dict: the value stored under `key`, if any. */
  function Lookup(fields: Fields, key: string): (r: Option<Json>)
    ensures r.None? <==> key !in Keys(fields)
    ensures r.Some? ==> (key, r.value) in fields
  {
    if fields == [] then None
    else
      KeysTail(fields);
      if fields[0].0 == key then Some(fields[0].1) else Lookup(fields[1..], key)
  }

  /** `dict.get(key, default)`: the default only when the key is absent;
      a key that is present yields its value, even an explicit null. */
  function Get(fields: Fields, key: string, default: Json): (v: Json)
    ensures key !in Keys(fields) ==> v == default
    ensures key in Keys(fields) ==> Lookup(fields, key) == Some(v)
  {
    match Lookup(fields, key)
    case None => default
    case Some(x) => x
  }

  /** In a dict, every stored entry is what subscripting yields. */
  lemma {:induction false} LookupMember(fields: Fields, key: string, v: Json)
    requires DistinctKeys(fields)
    requires (key, v) in fields
    ensures Lookup(fields, key) == Some(v)
  {
    KeysTail(fields);
    if fields[0] != (key, v) {
      var j :| 0 <= j < |fields| && fields[j] == (key, v);
      assert j > 0;
      assert Keys(fields)[0] != Keys(fields)[j];
      assert (key, v) in fields[1..] by { assert fields[1..][j - 1] == (key, v); }
      DistinctKeysTail(fields);
      LookupMember(fields[1..], key, v);
    }
  }
}
