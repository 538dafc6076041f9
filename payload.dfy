/**
 The outbound completions payload that `/generate` and the chat fallback
 build: a fixed eight-key dict literal whose entries use `dict.get`
 defaults, followed by a comprehension that drops every entry whose value
 is None (router/app.py:60-70 and 95-105).
 */
module Payload {
  import opened Wrappers
  import opened JsonValue

  const DefaultMaxTokens: Json := JInt(128)
  /** 0.7, carried as a decimal token. */
  const DefaultTemperature: Json := JFloat(7, -1)

  /** The keys of the dict literal, in the order they are written. */
  const PayloadKeys: seq<string> :=
    ["model", "prompt", "max_tokens", "temperature", "top_p", "top_k", "repetition_penalty", "stop"]

  /** The four keys read with `body.get(key)`, whose default is None. */
  const OptionalKeys: seq<string> := ["top_p", "top_k", "repetition_penalty", "stop"]

  /** `a` can be obtained from `b` by deleting elements. */
  predicate IsSubsequence<T(==)>(a: seq<T>, b: seq<T>)
    decreases |b|
  {
    |a| <= |b| &&
    (a == [] || (a[0] == b[0] && IsSubsequence(a[1..], b[1..])) || IsSubsequence(a, b[1..]))
  }

  lemma {:induction false} SubsequenceMembers<T>(a: seq<T>, b: seq<T>, x: T)
    requires IsSubsequence(a, b)
    requires x in a
    ensures x in b
    decreases |b|
  {
    if a[0] == b[0] && IsSubsequence(a[1..], b[1..]) {
      if x != a[0] {
        SubsequenceMembers(a[1..], b[1..], x);
      }
    } else {
      SubsequenceMembers(a, b[1..], x);
    }
  }

  /** The dict literal before filtering: `model` and `prompt` as the caller
      of the builder chose them, then six entries read from the body. */
  function Candidate(model: Json, prompt: Json, body: Fields): (c: Fields)
    ensures Keys(c) == PayloadKeys
  {
    [ ("model", model),
      ("prompt", prompt),
      ("max_tokens", Get(body, "max_tokens", DefaultMaxTokens)),
      ("temperature", Get(body, "temperature", DefaultTemperature)),
      ("top_p", Get(body, "top_p", JNull)),
      ("top_k", Get(body, "top_k", JNull)),
      ("repetition_penalty", Get(body, "repetition_penalty", JNull)),
      ("stop", Get(body, "stop", JNull)) ]
  }

  /** `{k: v for k, v in entries.items() if v is not None}`. */
  function DropNulls(entries: Fields): (r: Fields)
    ensures |r| <= |entries|
    ensures forall i :: 0 <= i < |r| ==> r[i].1 != JNull
    ensures forall e :: e in r ==> e in entries
    ensures forall e :: e in entries && e.1 != JNull ==> e in r
  {
    if entries == [] then []
    else
      var rest := DropNulls(entries[1..]);
      assert forall e :: e in entries ==> e == entries[0] || e in entries[1..];
      if entries[0].1 == JNull then rest else [entries[0]] + rest
  }

  /** The payload a builder sends: the literal with its None entries dropped. */
  function CompletionPayload(model: Json, prompt: Json, body: Fields): (p: Fields)
    ensures |p| <= |PayloadKeys|
    ensures forall i :: 0 <= i < |p| ==> p[i].1 != JNull
    ensures forall e :: e in p ==> e in Candidate(model, prompt, body)
    ensures forall e :: e in Candidate(model, prompt, body) && e.1 != JNull ==> e in p
  {
    DropNulls(Candidate(model, prompt, body))
  }

  /** What subscripting the filtered dict yields for a value `v` before filtering. */
  function NonNull(v: Json): Option<Json> {
    if v == JNull then None else Some(v)
  }

  lemma PayloadKeysDistinct()
    ensures Distinct(PayloadKeys)
  {
  }

  /** The filter keeps the entries in their order. */
  lemma {:induction false} DropNullsSubsequence(entries: Fields)
    ensures IsSubsequence(DropNulls(entries), entries)
    ensures IsSubsequence(Keys(DropNulls(entries)), Keys(entries))
  {
    if entries != [] {
      DropNullsSubsequence(entries[1..]);
      KeysTail(entries);
      if entries[0].1 != JNull {
        var r := DropNulls(entries);
        KeysTail(r);
        assert r[1..] == DropNulls(entries[1..]);
      }
    }
  }

  /** DropNulls is the only sequence that keeps the order of a dict's
      entries, holds no None, and loses no other entry. */
  lemma {:induction false} DropNullsCharacterized(entries: Fields, r: Fields)
    requires DistinctKeys(entries)
    requires IsSubsequence(r, entries)
    requires forall i :: 0 <= i < |r| ==> r[i].1 != JNull
    requires forall e :: e in entries && e.1 != JNull ==> e in r
    ensures r == DropNulls(entries)
    decreases |entries|
  {
    if entries == [] {
      assert |r| == 0;
    } else {
      var e, tail := entries[0], entries[1..];
      DistinctKeysTail(entries);
      forall x | x in tail ensures x != e {
        var j :| 0 <= j < |tail| && tail[j] == x;
        assert Keys(tail)[j] == x.0;
      }
      forall x | x in tail && x.1 != JNull ensures x in entries {
        assert x in entries by {
          var j :| 0 <= j < |tail| && tail[j] == x;
          assert entries[j + 1] == x;
        }
      }
      if e.1 == JNull {
        if r != [] {
          assert r[0] != entries[0];
        }
        assert IsSubsequence(r, tail);
        DropNullsCharacterized(tail, r);
      } else {
        assert e in r;
        if !(r[0] == e && IsSubsequence(r[1..], tail)) {
          assert IsSubsequence(r, tail);
          SubsequenceMembers(r, tail, e);
          assert false;
        }
        forall x | x in tail && x.1 != JNull ensures x in r[1..] {
          assert x in r && x != r[0];
        }
        forall i | 0 <= i < |r[1..]| ensures r[1..][i].1 != JNull {
          assert r[1..][i] == r[i + 1];
        }
        DropNullsCharacterized(tail, r[1..]);
        assert r == [r[0]] + r[1..];
      }
    }
  }

  /** Subscripting the filtered dict: an entry that held None is gone, every
      other entry is there with its value unchanged. */
  lemma {:induction false} DropNullsLookup(entries: Fields, key: string)
    requires DistinctKeys(entries)
    ensures Lookup(DropNulls(entries), key) ==
            match Lookup(entries, key)
            case None => None
            case Some(v) => NonNull(v)
  {
    if entries != [] {
      DistinctKeysTail(entries);
      DropNullsLookup(entries[1..], key);
      if entries[0].0 == key && entries[0].1 != JNull {
        assert DropNulls(entries)[0] == entries[0];
      } else if entries[0].0 == key {
        assert key !in Keys(entries[1..]);
      }
    }
  }

  /** Subscripting the payload with the i-th key of the literal. */
  lemma PayloadLookupAt(model: Json, prompt: Json, body: Fields, i: nat)
    requires i < |PayloadKeys|
    ensures Lookup(CompletionPayload(model, prompt, body), PayloadKeys[i]) ==
            NonNull(Candidate(model, prompt, body)[i].1)
  {
    var c := Candidate(model, prompt, body);
    PayloadKeysDistinct();
    LookupMember(c, c[i].0, c[i].1);
    DropNullsLookup(c, c[i].0);
  }

  /** A key outside the literal is never forwarded. */
  lemma PayloadLookupOther(model: Json, prompt: Json, body: Fields, key: string)
    requires key !in PayloadKeys
    ensures Lookup(CompletionPayload(model, prompt, body), key) == None
  {
    PayloadKeysDistinct();
    DropNullsLookup(Candidate(model, prompt, body), key);
  }

  /** The two keys the builder's caller chose. */
  lemma PayloadModelAndPrompt(model: Json, prompt: Json, body: Fields)
    ensures Lookup(CompletionPayload(model, prompt, body), "model") == NonNull(model)
    ensures Lookup(CompletionPayload(model, prompt, body), "prompt") == NonNull(prompt)
  {
    PayloadLookupAt(model, prompt, body, 0);
    PayloadLookupAt(model, prompt, body, 1);
  }

  /** `max_tokens` and `temperature`: the default when absent from the body,
      the body's value otherwise, and gone when that value is None. */
  lemma PayloadDefaulted(model: Json, prompt: Json, body: Fields)
    ensures Lookup(CompletionPayload(model, prompt, body), "max_tokens") ==
            NonNull(Get(body, "max_tokens", DefaultMaxTokens))
    ensures Lookup(CompletionPayload(model, prompt, body), "temperature") ==
            NonNull(Get(body, "temperature", DefaultTemperature))
  {
    PayloadLookupAt(model, prompt, body, 2);
    PayloadLookupAt(model, prompt, body, 3);
  }

  /** The four optional keys: forwarded exactly when the body holds a
      value other than None under them, and then with that value. */
  lemma PayloadOptional(model: Json, prompt: Json, body: Fields, key: string)
    requires key in OptionalKeys
    ensures Lookup(CompletionPayload(model, prompt, body), key) == NonNull(Get(body, key, JNull))
  {
    var i :| 0 <= i < |OptionalKeys| && OptionalKeys[i] == key;
    assert PayloadKeys[i + 4] == key;
    PayloadLookupAt(model, prompt, body, i + 4);
  }

  /** The payload is a dict with no None value whose keys are among the
      eight, in the order the literal lists them. */
  lemma CompletionPayloadShape(model: Json, prompt: Json, body: Fields)
    ensures var p := CompletionPayload(model, prompt, body);
      && (forall i :: 0 <= i < |p| ==> p[i].1 != JNull)
      && IsSubsequence(Keys(p), PayloadKeys)
      && (forall k :: k in Keys(p) ==> k in PayloadKeys)
      && DistinctKeys(p)
  {
    var c := Candidate(model, prompt, body);
    var p := DropNulls(c);
    DropNullsSubsequence(c);
    forall k | k in Keys(p) ensures k in PayloadKeys {
      SubsequenceMembers(Keys(p), PayloadKeys, k);
    }
    PayloadKeysDistinct();
    SubsequenceDistinct(Keys(p), PayloadKeys);
  }

  lemma {:induction false} SubsequenceDistinct<T>(a: seq<T>, b: seq<T>)
    requires IsSubsequence(a, b)
    requires Distinct(b)
    ensures Distinct(a)
    decreases |b|
  {
    if a != [] {
      assert Distinct(b[1..]) by {
        forall i, j | 0 <= i < j < |b| - 1 ensures b[1..][i] != b[1..][j] {
          assert b[i + 1] != b[j + 1];
        }
      }
      if a[0] == b[0] && IsSubsequence(a[1..], b[1..]) {
        SubsequenceDistinct(a[1..], b[1..]);
        forall j | 0 < j < |a| ensures a[0] != a[j] {
          assert a[j] == a[1..][j - 1];
          SubsequenceMembers(a[1..], b[1..], a[j]);
          var k :| 0 <= k < |b[1..]| && b[1..][k] == a[j];
          assert b[0] != b[k + 1];
        }
      } else {
        SubsequenceDistinct(a, b[1..]);
      }
    }
  }
}
