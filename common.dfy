/** Values, errors and codecs shared by every part of the transport model. */
module Common {

  datatype Option<+T> = None | Some(value: T)

  /** A JSON value. Numbers are integers (floating point is not modelled). An
      object keeps its members in text order, which is the order in which
      JavaScript's `for ... in` visits keys that are not array indices. */
  datatype Json =
    | JNull
    | JBool(b: bool)
    | JNum(n: int)
    | JStr(s: string)
    | JArr(items: seq<Json>)
    | JObj(members: seq<(string, Json)>)

  /** An `ExtendedError`: a message, a code, optional details and an optional
      stack. */
  datatype Error = Error(message: string, code: Json, details: Option<Json>, stack: Option<string>)

  /** The code `new ExtendedError(message)` gets when none is given. */
  const DEFAULT_ERROR_CODE: int := -1000

  /** `new ExtendedError(message)`. */
  function Fail(message: string): Error
  {
    Error(message, JNum(DEFAULT_ERROR_CODE), None, None)
  }

  /** The outcome of an operation that may throw. */
  datatype Result<+T> = Ok(value: T) | Err(error: Error)

  /** The JSON text codec (`JSON.parse` / `JSON.stringify`), taken as given:
      `parse` answers an error where `JSON.parse` throws. */
  datatype Codec = Codec(parse: string -> Result<Json>, stringify: Json -> string)

  /** A codec for which parsing what was stringified gives the value back. */
  ghost predicate RoundTrips(codec: Codec)
  {
    forall j :: codec.parse(codec.stringify(j)) == Ok(j)
  }

  /** lodash `_.isNil` on an optional member: undefined or null. */
  predicate IsNil(value: Option<Json>)
  {
    value.None? || value.value.JNull?
  }

  /** JavaScript truthiness of an optional member. */
  predicate Truthy(value: Option<Json>)
  {
    value.Some? &&
    match value.value
    case JNull => false
    case JBool(b) => b
    case JNum(n) => n != 0
    case JStr(s) => |s| > 0
    case JArr(_) => true
    case JObj(_) => true
  }

  /** `obj[key]` on a list of members: the first member with that key. */
  function Lookup(members: seq<(string, Json)>, key: string): (r: Option<Json>)
    ensures r.Some? <==> exists i :: 0 <= i < |members| && members[i].0 == key
    ensures r.Some? ==> exists i :: 0 <= i < |members| && members[i] == (key, r.value)
  {
    if |members| == 0 then None
    else if members[0].0 == key then Some(members[0].1)
    else
      var r := Lookup(members[1..], key);
      assert forall i :: 0 < i < |members| ==> members[i] == members[1..][i - 1];
      r
  }

  /** `value[key]`: undefined (None) unless `value` is an object holding `key`. */
  function Member(value: Json, key: string): Option<Json>
  {
    if value.JObj? then Lookup(value.members, key) else None
  }

  /** The keys of a member list, in order. */
  function Keys(members: seq<(string, Json)>): (r: seq<string>)
    ensures |r| == |members|
    ensures forall i :: 0 <= i < |r| ==> r[i] == members[i].0
  {
    if |members| == 0 then [] else [members[0].0] + Keys(members[1..])
  }

  /** `obj[key] = value` on a member list: an existing key keeps its place and
      takes the new value; a new key is appended. */
  function Assign(members: seq<(string, Json)>, key: string, value: Json): (r: seq<(string, Json)>)
    ensures key in Keys(members) ==> Keys(r) == Keys(members)
    ensures key !in Keys(members) ==> Keys(r) == Keys(members) + [key]
  {
    if |members| == 0 then
      assert Keys([(key, value)]) == [key];
      [(key, value)]
    else if members[0].0 == key then
      var r := [(key, value)] + members[1..];
      assert r[1..] == members[1..];
      r
    else
      var rest := Assign(members[1..], key, value);
      var r := [members[0]] + rest;
      assert r[1..] == rest;
      assert Keys(r) == [members[0].0] + Keys(rest);
      r
  }

  /** After `obj[key] = value`, `key` reads as `value` and every other key
      reads as before. */
  lemma {:induction false} AssignLookup(members: seq<(string, Json)>, key: string, value: Json, k: string)
    ensures Lookup(Assign(members, key, value), k) == if k == key then Some(value) else Lookup(members, k)
    decreases |members|
  {
    if |members| == 0 {
      LookupCons(key, value, [], k);
    } else {
      assert members == [members[0]] + members[1..];
      LookupCons(members[0].0, members[0].1, members[1..], k);
      if members[0].0 == key {
        LookupCons(key, value, members[1..], k);
      } else {
        AssignLookup(members[1..], key, value, k);
        LookupCons(members[0].0, members[0].1, Assign(members[1..], key, value), k);
      }
    }
  }

  /** `TransformUtil.fromClass(error)`: the plain object of an error; a field
      that is undefined does not appear. */
  function ErrorJson(e: Error): Json
  {
    JObj([("message", JStr(e.message)), ("code", e.code)]
         + (if e.details.Some? then [("details", e.details.value)] else [])
         + (if e.stack.Some? then [("stack", JStr(e.stack.value))] else []))
  }

  /** `ExtendedError.instanceOf(value)`: an object carrying a code and a message. */
  predicate IsErrorJson(value: Json)
  {
    Member(value, "code").Some? && Member(value, "message").Some?
  }

  /** `ExtendedError.create(value)` of an object that is an error: its message,
      code, details and stack taken back out. */
  function ErrorFromJson(value: Json): Error
    requires IsErrorJson(value)
  {
    var message := Member(value, "message").value;
    var stack := Member(value, "stack");
    Error(if message.JStr? then message.s else "",
          Member(value, "code").value,
          Member(value, "details"),
          if stack.Some? && stack.value.JStr? then Some(stack.value.s) else None)
  }

  /** Looking a key up in a list that starts with a given member. */
  lemma LookupCons(k: string, v: Json, rest: seq<(string, Json)>, key: string)
    ensures Lookup([(k, v)] + rest, key) == if k == key then Some(v) else Lookup(rest, key)
  {
    assert ([(k, v)] + rest)[1..] == rest;
  }

  /** The optional members of an error's plain object: `details`, then `stack`. */
  lemma {:induction false} ErrorJsonOptionals(e: Error)
    ensures var d: seq<(string, Json)> := if e.details.Some? then [("details", e.details.value)] else [];
      var st: seq<(string, Json)> := if e.stack.Some? then [("stack", JStr(e.stack.value))] else [];
      Lookup(d + st, "details") == e.details
      && Lookup(d + st, "stack") == (if e.stack.Some? then Some(JStr(e.stack.value)) else None)
  {
    var st: seq<(string, Json)> := if e.stack.Some? then [("stack", JStr(e.stack.value))] else [];
    if e.stack.Some? {
      LookupCons("stack", JStr(e.stack.value), [], "stack");
      LookupCons("stack", JStr(e.stack.value), [], "details");
    }
    if e.details.Some? {
      LookupCons("details", e.details.value, st, "details");
      LookupCons("details", e.details.value, st, "stack");
    } else {
      assert [] + st == st;
    }
  }

  /** The members after `message`: `code`, then the optional ones. */
  lemma ErrorJsonTail(e: Error, d: seq<(string, Json)>, st: seq<(string, Json)>)
    requires d == if e.details.Some? then [("details", e.details.value)] else []
    requires st == if e.stack.Some? then [("stack", JStr(e.stack.value))] else []
    ensures Lookup([("code", e.code)] + (d + st), "code") == Some(e.code)
    ensures Lookup([("code", e.code)] + (d + st), "details") == e.details
    ensures Lookup([("code", e.code)] + (d + st), "stack") == (if e.stack.Some? then Some(JStr(e.stack.value)) else None)
  {
    ErrorJsonOptionals(e);
    LookupCons("code", e.code, d + st, "code");
    LookupCons("code", e.code, d + st, "details");
    LookupCons("code", e.code, d + st, "stack");
  }

  /** Each field of an error is found under its own key in its plain object. */
  lemma ErrorJsonMembers(e: Error)
    ensures Member(ErrorJson(e), "message") == Some(JStr(e.message))
    ensures Member(ErrorJson(e), "code") == Some(e.code)
    ensures Member(ErrorJson(e), "details") == e.details
    ensures Member(ErrorJson(e), "stack") == (if e.stack.Some? then Some(JStr(e.stack.value)) else None)
  {
    var d: seq<(string, Json)> := if e.details.Some? then [("details", e.details.value)] else [];
    var st: seq<(string, Json)> := if e.stack.Some? then [("stack", JStr(e.stack.value))] else [];
    var rest := [("code", e.code)] + (d + st);
    assert ErrorJson(e).members == [("message", JStr(e.message))] + rest;
    ErrorJsonTail(e, d, st);
    LookupCons("message", JStr(e.message), rest, "message");
    LookupCons("message", JStr(e.message), rest, "code");
    LookupCons("message", JStr(e.message), rest, "details");
    LookupCons("message", JStr(e.message), rest, "stack");
  }

  /** An error survives being turned into a plain object and back. */
  lemma ErrorJsonRoundTrip(e: Error)
    ensures IsErrorJson(ErrorJson(e))
    ensures ErrorFromJson(ErrorJson(e)) == e
  {
    ErrorJsonMembers(e);
  }

  /** lodash `_.isEmpty`: true of null, booleans, numbers, and of empty
      strings, arrays and objects. */
  predicate IsEmptyJson(value: Json)
  {
    match value
    case JNull => true
    case JBool(_) => true
    case JNum(_) => true
    case JStr(s) => |s| == 0
    case JArr(items) => |items| == 0
    case JObj(members) => |members| == 0
  }
}
