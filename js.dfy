/** JavaScript values and the few built-in string and array operations the
    route handlers and the form component rely on. */
module Js {

  /** A JSON-like value as it arrives in a request body, a fetched document or
      component state. Numbers are outside the model; README's "Left out"
      says what the handlers do with them. */
  datatype Value =
    | Undefined
    | Null
    | Bool(b: bool)
    | Str(s: string)
    | List(items: seq<string>)
    | Obj(fields: map<string, Value>)

  /** How a JavaScript operation ends: with a value, or by throwing a TypeError
      (calling a string method on a non-string, reading a property of null). */
  datatype Completion<T> = Normal(value: T) | Threw

  /** A value that may be absent, as in a callback's optional error argument. */
  datatype Option<T> = None | Some(value: T)

  /** JavaScript truthiness: undefined, null, false and "" are falsy; every
      object and every array is truthy. */
  predicate Truthy(v: Value) {
    match v
    case Undefined => false
    case Null => false
    case Bool(b) => b
    case Str(s) => s != ""
    case List(_) => true
    case Obj(_) => true
  }

  /** The falsy values are exactly undefined, null, false and "". */
  lemma FalsyValues(v: Value)
    ensures !Truthy(v) <==> v == Undefined || v == Null || v == Bool(false) || v == Str("")
  {
  }

  /** Reading a property of a plain object: a missing property reads as undefined. */
  function Get(m: map<string, Value>, key: string): Value {
    if key in m then m[key] else Undefined
  }

  /** `v.key` on a value that is neither undefined nor null: an object's own
      property, and undefined on strings, booleans and arrays (none of the keys
      read in this model is a built-in property of those). */
  function Prop(v: Value, key: string): Value
    requires !v.Undefined? && !v.Null?
  {
    if v.Obj? then Get(v.fields, key) else Undefined
  }

  /** What any reasonable reading of the project's `is-empty` helper promises:
      undefined, null and "" are empty, and an object is empty exactly when it
      has no keys. The helper's own source is not part of this model, so it is
      passed around as a parameter and results that depend on it take this
      predicate as a hypothesis. */
  ghost predicate IsEmptyContract(isEmpty: Value -> bool) {
    && isEmpty(Undefined)
    && isEmpty(Null)
    && isEmpty(Str(""))
    && forall m: map<string, Value> :: isEmpty(Obj(m)) <==> m == map[]
  }

  /** `!isEmpty(v) ? v : ""`, the idiom that turns a missing or empty field
      into the empty string. */
  function OrBlank(v: Value, isEmpty: Value -> bool): Value {
    if !isEmpty(v) then v else Str("")
  }

  /** A mutable JavaScript object (a request body, a document handed to a
      component): the map of its own properties, which code updates in place. */
  class JsObject {
    var fields: map<string, Value>

    constructor (init: map<string, Value>)
      ensures fields == init
    {
      fields := init;
    }
  }

  /** `Array.prototype.indexOf`: the first position holding x, or -1. */
  function IndexOf<T(==)>(s: seq<T>, x: T): (r: int)
    ensures -1 <= r < |s|
    ensures r == -1 <==> x !in s
    ensures 0 <= r ==> s[r] == x && x !in s[..r]
  {
    if |s| == 0 then -1
    else if s[0] == x then 0
    else
      var k := IndexOf(s[1..], x);
      if k == -1 then -1
      else
        assert s[..k + 1] == [s[0]] + s[1..][..k];
        k + 1
  }

  /** `Array.prototype.filter`: exactly the elements of s that pass p. */
  function Filter<T>(s: seq<T>, p: T -> bool): (r: seq<T>)
    ensures |r| <= |s|
    ensures forall i :: 0 <= i < |r| ==> p(r[i])
    ensures |r| == 0 <==> forall i :: 0 <= i < |s| ==> !p(s[i])
    ensures forall i :: 0 <= i < |r| ==> r[i] in s
    ensures forall i :: 0 <= i < |s| && p(s[i]) ==> s[i] in r
  {
    if |s| == 0 then []
    else
      var rest := Filter(s[1..], p);
      assert forall i :: 1 <= i < |s| ==> s[i] == s[1..][i - 1];
      if p(s[0]) then [s[0]] + rest else rest
  }

  /** The position `splice(start, 1)` actually removes: a negative start counts
      from the end and is clamped at 0. */
  function SpliceStart(length: nat, start: int): nat {
    if start >= 0 then start
    else if length + start < 0 then 0
    else length + start
  }

  /** `Array.prototype.splice(start, 1)` on a copy: the element at the resolved
      start is removed and the rest keep their order; a start at or past the end
      removes nothing. */
  function SpliceOne<T>(s: seq<T>, start: int): (r: seq<T>)
    ensures var k := SpliceStart(|s|, start);
      && (k < |s| ==> |r| == |s| - 1
                      && (forall i :: 0 <= i < k ==> r[i] == s[i])
                      && (forall i :: k <= i < |r| ==> r[i] == s[i + 1]))
      && (|s| <= k ==> r == s)
  {
    var k := SpliceStart(|s|, start);
    if k < |s| then s[..k] + s[k + 1..] else s
  }

  /** `s.split(",")`: the pieces between commas, in order; "" splits into [""]. */
  function SplitOnComma(s: string): (r: seq<string>)
    ensures |r| >= 1
    ensures forall i :: 0 <= i < |r| ==> ',' !in r[i]
  {
    if s == [] then [""]
    else
      var rest := SplitOnComma(s[1..]);
      assert s == [s[0]] + s[1..];
      if s[0] == ',' then [""] + rest
      else [[s[0]] + rest[0]] + rest[1..]
  }

  /** `split` yields one piece more than there are commas. */
  lemma {:induction false} SplitCount(s: string)
    ensures |SplitOnComma(s)| == multiset(s)[','] + 1
  {
    if s != [] {
      SplitCount(s[1..]);
      assert s == [s[0]] + s[1..];
      assert multiset(s) == multiset{s[0]} + multiset(s[1..]);
    }
  }

  /** `xs.join(",")`: the pieces with a comma between neighbours; [] joins to "". */
  function JoinWithComma(xs: seq<string>): (r: string)
    ensures |xs| == 0 ==> r == ""
    ensures |xs| >= 1 ==> xs[0] <= r
  {
    if |xs| == 0 then ""
    else if |xs| == 1 then xs[0]
    else xs[0] + "," + JoinWithComma(xs[1..])
  }

  /** Joining n comma-free pieces puts exactly n - 1 commas into the string. */
  lemma {:induction false} JoinCount(xs: seq<string>)
    requires |xs| >= 1
    requires forall i :: 0 <= i < |xs| ==> ',' !in xs[i]
    ensures multiset(JoinWithComma(xs))[','] == |xs| - 1
  {
    if |xs| > 1 {
      JoinCount(xs[1..]);
      var rest := JoinWithComma(xs[1..]);
      assert multiset(xs[0] + "," + rest) == multiset(xs[0]) + multiset{','} + multiset(rest);
    }
  }

  /** Splitting a string on commas and joining the pieces with commas gives the
      string back. */
  lemma {:induction false} JoinSplit(s: string)
    ensures JoinWithComma(SplitOnComma(s)) == s
  {
    if s != [] {
      var c, t := s[0], s[1..];
      var rest := SplitOnComma(t);
      JoinSplit(t);
      assert s == [c] + t;
      if c == ',' {
        assert SplitOnComma(s) == [""] + rest;
        JoinCons("", rest);
      } else {
        var pieces := [[c] + rest[0]] + rest[1..];
        assert SplitOnComma(s) == pieces;
        assert [rest[0]] + rest[1..] == rest;
        JoinPrependChar(c, rest[0], rest[1..]);
        assert JoinWithComma(pieces) == [c] + JoinWithComma(rest);
      }
    }
  }

  /** Putting a character in front of the first piece puts it in front of the
      joined string. */
  lemma JoinPrependChar(c: char, a: string, t: seq<string>)
    ensures JoinWithComma([[c] + a] + t) == [c] + JoinWithComma([a] + t)
  {
    if |t| == 0 {
      assert [[c] + a] + t == [[c] + a];
      assert [a] + t == [a];
    } else {
      JoinCons([c] + a, t);
      JoinCons(a, t);
      var j := JoinWithComma(t);
      assert ([c] + a) + "," + j == [c] + (a + "," + j);
    }
  }

  /** Joining a piece in front of a non-empty list puts a comma after it. */
  lemma JoinCons(x: string, xs: seq<string>)
    requires |xs| >= 1
    ensures JoinWithComma([x] + xs) == x + "," + JoinWithComma(xs)
  {
    assert ([x] + xs)[1..] == xs;
  }

  /** A comma-free string is its own only piece. */
  lemma {:induction false} SplitCommaFree(a: string)
    requires ',' !in a
    ensures SplitOnComma(a) == [a]
  {
    if a != [] {
      SplitCommaFree(a[1..]);
      assert a[0] in a;
      assert a == [a[0]] + a[1..];
    }
  }

  /** Splitting `a + "," + t` for a comma-free a yields a, then the pieces of t. */
  lemma {:induction false} SplitAfterPiece(a: string, t: string)
    requires ',' !in a
    ensures SplitOnComma(a + "," + t) == [a] + SplitOnComma(t)
  {
    if a == [] {
      assert a + "," + t == [','] + t;
      assert ([','] + t)[1..] == t;
    } else {
      assert (a + "," + t)[1..] == a[1..] + "," + t;
      assert (a + "," + t)[0] == a[0];
      SplitAfterPiece(a[1..], t);
      assert [a[0]] + a[1..] == a;
    }
  }

  /** Joining a non-empty list of comma-free pieces and splitting the result
      gives the list back. */
  lemma {:induction false} SplitJoin(xs: seq<string>)
    requires |xs| >= 1
    requires forall i :: 0 <= i < |xs| ==> ',' !in xs[i]
    ensures SplitOnComma(JoinWithComma(xs)) == xs
  {
    if |xs| == 1 {
      SplitCommaFree(xs[0]);
    } else {
      SplitJoin(xs[1..]);
      SplitAfterPiece(xs[0], JoinWithComma(xs[1..]));
      assert xs == [xs[0]] + xs[1..];
    }
  }
}

/** What a route handler sends back. */
module Http {

  /** The id of a user, as the authenticated requester or a document's owner. */
  type UserId = string

  /** What a request validator returns: the field-keyed messages and whether
      there were none. The validators' rules are not part of this model. */
  datatype Validation = Validation(errors: map<string, string>, isValid: bool)

  /** `response.json(body)` with status 200; `response.status(s).json(errors)`
      with a field-keyed object of messages; or an exception that escaped the
      handler, which Express answers with status 500. */
  datatype Response<T> =
    | Json(body: T)
    | Fail(status: int, errors: map<string, string>)
    | ServerError
}
