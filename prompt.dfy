/**
 Flattening a chat request's messages into one completion prompt:
 `"\n".join(m.get("content", "") for m in msgs)` (router/app.py:90-94).
 */
module Prompt {
  import opened Wrappers
  import opened JsonValue

  /** `body.get("messages") or []`: a falsy or absent value becomes []. */
  function MessagesOf(body: Fields): (v: Json)
    ensures Truthy(v) <==> Truthy(Get(body, "messages", JNull))
    ensures Truthy(v) ==> v == Get(body, "messages", JNull)
  {
    var v := Get(body, "messages", JNull);
    if Truthy(v) then v else JArr([])
  }

  /** A message the join can read: a dict whose `content` is absent or a
      string. Anything else makes Python raise before the call is made. */
  predicate WellFormedMessage(m: Json) {
    && m.JObj?
    && match Lookup(m.fields, "content")
       case None => true
       case Some(c) => c.JStr?
  }

  /** The messages are falsy (the 400 path) or a list of readable messages. */
  predicate MessagesWellFormed(body: Fields) {
    var v := MessagesOf(body);
    !Truthy(v) || (v.JArr? && forall i :: 0 <= i < |v.items| ==> WellFormedMessage(v.items[i]))
  }

  /** `m.get("content", "")`. */
  function MessageContent(m: Json): (c: string)
    requires WellFormedMessage(m)
    ensures Lookup(m.fields, "content") == None ==> c == ""
    ensures Lookup(m.fields, "content") != None ==> Lookup(m.fields, "content") == Some(JStr(c))
  {
    match Lookup(m.fields, "content")
    case None => ""
    case Some(v) => v.s
  }

  /** The contents of the messages, one per message, in order. */
  function Contents(ms: seq<Json>): (cs: seq<string>)
    requires forall i :: 0 <= i < |ms| ==> WellFormedMessage(ms[i])
    ensures |cs| == |ms|
    ensures forall i :: 0 <= i < |ms| ==> cs[i] == MessageContent(ms[i])
  {
    if ms == [] then [] else [MessageContent(ms[0])] + Contents(ms[1..])
  }

  /** The total length of the strings. */
  function LengthSum(xs: seq<string>): nat {
    if xs == [] then 0 else |xs[0]| + LengthSum(xs[1..])
  }

  /** `"\n".join(xs)`: the strings in order with one newline between two
      neighbours, so a result without a newline came from at most one
      string. */
  function JoinLines(xs: seq<string>): (r: string)
    ensures xs == [] ==> r == ""
    ensures xs != [] ==> xs[0] <= r && |r| == LengthSum(xs) + |xs| - 1
    ensures '\n' !in r ==> |xs| <= 1
  {
    if |xs| == 0 then ""
    else if |xs| == 1 then xs[0]
    else
      var r := xs[0] + "\n" + JoinLines(xs[1..]);
      assert r[|xs[0]|] == '\n';
      r
  }

  /** `s.split("\n")`, the join's inverse: the pieces between newlines. */
  function SplitLines(s: string): (r: seq<string>)
    ensures |r| >= 1
    ensures forall i :: 0 <= i < |r| ==> '\n' !in r[i]
  {
    if s == [] then [""]
    else if s[0] == '\n' then [""] + SplitLines(s[1..])
    else
      var rest := SplitLines(s[1..]);
      [[s[0]] + rest[0]] + rest[1..]
  }

  /** The prompt the fallback sends: it starts with the first message's
      content, and it holds a newline whenever there are two messages or
      more. */
  function FlattenMessages(ms: seq<Json>): (p: string)
    requires forall i :: 0 <= i < |ms| ==> WellFormedMessage(ms[i])
    ensures ms == [] ==> p == ""
    ensures ms != [] ==> MessageContent(ms[0]) <= p
    ensures |ms| >= 2 ==> '\n' in p
  {
    JoinLines(Contents(ms))
  }

  lemma JoinLinesCons(x: string, xs: seq<string>)
    requires xs != []
    ensures JoinLines([x] + xs) == x + "\n" + JoinLines(xs)
  {
    assert ([x] + xs)[1..] == xs;
  }

  lemma {:induction false} SplitNoNewline(a: string)
    requires '\n' !in a
    ensures SplitLines(a) == [a]
  {
    if a != [] {
      SplitNoNewline(a[1..]);
      assert [a[0]] + a[1..] == a;
    }
  }

  lemma {:induction false} SplitAfterLine(a: string, b: string)
    requires '\n' !in a
    ensures SplitLines(a + "\n" + b) == [a] + SplitLines(b)
  {
    var s := a + "\n" + b;
    if a == [] {
      assert s[0] == '\n' && s[1..] == b;
    } else {
      assert s[0] == a[0] && s[1..] == a[1..] + "\n" + b;
      SplitAfterLine(a[1..], b);
      assert [a[0]] + a[1..] == a;
    }
  }

  /** Splitting the joined lines gives them back, when none holds a newline. */
  lemma {:induction false} SplitJoin(xs: seq<string>)
    requires |xs| >= 1
    requires forall i :: 0 <= i < |xs| ==> '\n' !in xs[i]
    ensures SplitLines(JoinLines(xs)) == xs
  {
    if |xs| == 1 {
      SplitNoNewline(xs[0]);
    } else {
      SplitJoin(xs[1..]);
      SplitAfterLine(xs[0], JoinLines(xs[1..]));
      assert [xs[0]] + xs[1..] == xs;
    }
  }

  /** Joining the pieces of a split gives back the string. */
  lemma {:induction false} JoinSplit(s: string)
    ensures JoinLines(SplitLines(s)) == s
    decreases |s|
  {
    if s != [] {
      var rest := SplitLines(s[1..]);
      JoinSplit(s[1..]);
      if s[0] == '\n' {
        JoinLinesCons("", rest);
      } else if |rest| == 1 {
        assert [s[0]] + s[1..] == s;
      } else {
        JoinLinesCons(rest[0], rest[1..]);
        assert [rest[0]] + rest[1..] == rest;
        JoinLinesCons([s[0]] + rest[0], rest[1..]);
        assert [[s[0]] + rest[0]] + rest[1..] == SplitLines(s);
        assert [s[0]] + s[1..] == s;
      }
    }
  }

  /** A single message yields its content unchanged. */
  lemma FlattenSingle(m: Json)
    requires WellFormedMessage(m)
    ensures FlattenMessages([m]) == MessageContent(m)
  {
  }

  /** The i-th line of the prompt is the i-th message's content, as long as
      no content itself holds a newline. */
  lemma FlattenLines(ms: seq<Json>)
    requires |ms| >= 1
    requires forall i :: 0 <= i < |ms| ==> WellFormedMessage(ms[i])
    requires forall i :: 0 <= i < |ms| ==> '\n' !in MessageContent(ms[i])
    ensures SplitLines(FlattenMessages(ms)) == Contents(ms)
  {
    SplitJoin(Contents(ms));
  }
}
