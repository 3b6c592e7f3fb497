/** The request and response envelopes of the transport, and the parsing of
    an invocation into a request (`TransportFabricRequestPayload`). */
module Payload {
  import opened Common
  import opened Constants

  /** A request envelope as `toClass` leaves it: each field as the JSON gave
      it, undefined (None) when absent. `isReadonly` is not declared on the
      class but is copied like any other member. */
  datatype RawPayload = RawPayload(
    id: Option<Json>, name: Option<Json>, request: Option<Json>,
    options: Option<Json>, isNeedReply: Option<Json>, isReadonly: Option<Json>)

  /** A request envelope that passed validation. `options` is the command
      options object, `request` the optional argument. */
  datatype RequestPayload = RequestPayload(
    id: string, name: string, request: Option<Json>,
    options: Json, isNeedReply: bool, isReadonly: Option<Json>)

  /** What the class validator accepts: the options object is defined, is an
      object, and its own validation (taken as given) accepts it. */
  predicate ValidPayload(p: RequestPayload, optionsValid: Json -> bool)
  {
    p.options.JObj? && optionsValid(p.options)
  }

  /** `TransformUtil.toClass(TransportFabricRequestPayload, json)`. */
  function ToRaw(j: Json): RawPayload
  {
    RawPayload(Member(j, "id"), Member(j, "name"), Member(j, "request"),
               Member(j, "options"), Member(j, "isNeedReply"), Member(j, "isReadonly"))
  }

  /** `ValidateUtil.validate(payload)`: `id` and `name` are strings, `options`
      is defined and valid, `isNeedReply` is a boolean, `request` is optional.
      The validator's own message text is not modelled. */
  function Validate(raw: RawPayload, optionsValid: Json -> bool): (r: Result<RequestPayload>)
    ensures r.Ok? <==>
      raw.id.Some? && raw.id.value.JStr? && raw.name.Some? && raw.name.value.JStr?
      && raw.options.Some? && raw.options.value.JObj? && optionsValid(raw.options.value)
      && raw.isNeedReply.Some? && raw.isNeedReply.value.JBool?
    ensures r.Ok? ==> (ValidPayload(r.value, optionsValid)
      && Some(JStr(r.value.id)) == raw.id && Some(JStr(r.value.name)) == raw.name
      && r.value.request == raw.request && Some(r.value.options) == raw.options
      && Some(JBool(r.value.isNeedReply)) == raw.isNeedReply && r.value.isReadonly == raw.isReadonly)
  {
    if raw.id.None? || !raw.id.value.JStr? then Err(Fail("Invalid payload: id must be a string"))
    else if raw.name.None? || !raw.name.value.JStr? then Err(Fail("Invalid payload: name must be a string"))
    else if raw.options.None? || !raw.options.value.JObj? || !optionsValid(raw.options.value) then
      Err(Fail("Invalid payload: options must be defined and valid"))
    else if raw.isNeedReply.None? || !raw.isNeedReply.value.JBool? then
      Err(Fail("Invalid payload: isNeedReply must be a boolean"))
    else
      Ok(RequestPayload(raw.id.value.s, raw.name.value.s, raw.request,
                        raw.options.value, raw.isNeedReply.value.b, raw.isReadonly))
  }

  /** `new TransportInvalidDataError(message, data)`. */
  function InvalidData(message: string, data: Json): Error
  {
    Error(message, INVALID_DATA_CODE, Some(data), None)
  }

  /** `TransportFabricRequestPayload.parse(stub)`: the function name, then the
      number of parameters, then decoding, then validation. */
  function Parse(fcn: string, params: seq<string>, codec: Codec, optionsValid: Json -> bool): (r: Result<RequestPayload>)
    ensures fcn != TRANSPORT_FABRIC_METHOD ==>
      r == Err(InvalidData("Invalid payload: function must be \"" + TRANSPORT_FABRIC_METHOD + "\"", JStr(fcn)))
    ensures fcn == TRANSPORT_FABRIC_METHOD && |params| != 1 ==>
      r == Err(InvalidData("Invalid payload: params length must be 1", JNum(|params|)))
    ensures fcn == TRANSPORT_FABRIC_METHOD && |params| == 1 && codec.parse(params[0]).Err? ==>
      r == Err(InvalidData("Invalid payload: " + codec.parse(params[0]).error.message, JStr(params[0])))
    ensures r.Ok? ==> fcn == TRANSPORT_FABRIC_METHOD && |params| == 1 && ValidPayload(r.value, optionsValid)
  {
    if fcn != TRANSPORT_FABRIC_METHOD then
      Err(InvalidData("Invalid payload: function must be \"" + TRANSPORT_FABRIC_METHOD + "\"", JStr(fcn)))
    else if |params| != 1 then
      Err(InvalidData("Invalid payload: params length must be 1", JNum(|params|)))
    else
      var content := params[0];
      match codec.parse(content)
      case Err(e) => Err(InvalidData("Invalid payload: " + e.message, JStr(content)))
      case Ok(j) => Validate(ToRaw(j), optionsValid)
  }

  /** The plain object of a request envelope, `TransformUtil.fromClass(payload)`;
      undefined fields do not appear. */
  function PayloadJson(p: RequestPayload): Json
  {
    JObj([("id", JStr(p.id))] + ([("name", JStr(p.name))] + (OptionalMember("request", p.request)
         + ([("options", p.options)] + ([("isNeedReply", JBool(p.isNeedReply))]
         + OptionalMember("isReadonly", p.isReadonly))))))
  }

  function OptionalMember(key: string, value: Option<Json>): seq<(string, Json)>
  {
    if value.Some? then [(key, value.value)] else []
  }

  lemma LookupOptional(key: string, value: Option<Json>, rest: seq<(string, Json)>, k: string)
    ensures Lookup(OptionalMember(key, value) + rest, k) ==
      if value.Some? && key == k then value else Lookup(rest, k)
  {
    if value.Some? {
      LookupCons(key, value.value, rest, k);
    } else {
      assert OptionalMember(key, value) + rest == rest;
    }
  }

  /** Each member of an envelope's plain object is found under its own key. */
  lemma PayloadMember(p: RequestPayload, k: string)
    ensures Member(PayloadJson(p), k) ==
      if k == "id" then Some(JStr(p.id))
      else if k == "name" then Some(JStr(p.name))
      else if k == "request" then p.request
      else if k == "options" then Some(p.options)
      else if k == "isNeedReply" then Some(JBool(p.isNeedReply))
      else if k == "isReadonly" then p.isReadonly
      else None
  {
    var ro := OptionalMember("isReadonly", p.isReadonly);
    var t4 := [("isNeedReply", JBool(p.isNeedReply))] + ro;
    var t3 := [("options", p.options)] + t4;
    var t2 := OptionalMember("request", p.request) + t3;
    var t1 := [("name", JStr(p.name))] + t2;
    LookupCons("id", JStr(p.id), t1, k);
    LookupCons("name", JStr(p.name), t2, k);
    LookupOptional("request", p.request, t3, k);
    LookupCons("options", p.options, t4, k);
    LookupCons("isNeedReply", JBool(p.isNeedReply), ro, k);
    assert ro == OptionalMember("isReadonly", p.isReadonly) + [];
    LookupOptional("isReadonly", p.isReadonly, [], k);
  }

  /** What a client sends is what the chaincode reads back: every valid
      envelope survives `toClass` of its plain object and validation. */
  lemma PayloadRoundTrip(p: RequestPayload, optionsValid: Json -> bool)
    requires ValidPayload(p, optionsValid)
    ensures Validate(ToRaw(PayloadJson(p)), optionsValid) == Ok(p)
  {
    PayloadMember(p, "id");
    PayloadMember(p, "name");
    PayloadMember(p, "request");
    PayloadMember(p, "options");
    PayloadMember(p, "isNeedReply");
    PayloadMember(p, "isReadonly");
  }

  /** A client's request arrives as it was sent: parsing an invocation of the
      transport function whose one parameter is the stringified envelope gives
      the envelope back. */
  lemma ParseRoundTrip(p: RequestPayload, codec: Codec, optionsValid: Json -> bool)
    requires RoundTrips(codec) && ValidPayload(p, optionsValid)
    ensures Parse(TRANSPORT_FABRIC_METHOD, [codec.stringify(PayloadJson(p))], codec, optionsValid) == Ok(p)
  {
    assert codec.parse(codec.stringify(PayloadJson(p))) == Ok(PayloadJson(p));
    PayloadRoundTrip(p, optionsValid);
  }

  /** A command built by the default command factory
      (`new TransportCommandAsync(name, request, id)`). */
  datatype Command = Command(id: string, name: string, request: Option<Json>)

  function CreateCommand(p: RequestPayload): Command
  {
    Command(p.id, p.name, p.request)
  }

  /** How a command ended: with data (possibly undefined) or with an error. */
  datatype CommandResult = Data(value: Option<Json>) | Failure(error: Error)

  /** A response envelope: the correlation id (null when the request could not
      be parsed) and the command's data or error. */
  datatype ResponsePayload = ResponsePayload(id: Option<string>, response: CommandResult)

  /** The plain object of a command result. */
  function ResultJson(r: CommandResult): Option<Json>
  {
    match r
    case Data(v) => v
    case Failure(e) => Some(ErrorJson(e))
  }

  /** The plain object of a response envelope. */
  function ResponseJson(p: ResponsePayload): Json
  {
    JObj([("id", if p.id.Some? then JStr(p.id.value) else JNull)]
         + OptionalMember("response", ResultJson(p.response)))
  }

  /** The id and the result of a response envelope are found under their keys. */
  lemma ResponseMembers(p: ResponsePayload)
    ensures Member(ResponseJson(p), "id") == Some(if p.id.Some? then JStr(p.id.value) else JNull)
    ensures Member(ResponseJson(p), "response") == ResultJson(p.response)
  {
    var idJson := if p.id.Some? then JStr(p.id.value) else JNull;
    var rest := OptionalMember("response", ResultJson(p.response));
    LookupCons("id", idJson, rest, "id");
    LookupCons("id", idJson, rest, "response");
    assert rest == rest + [];
    LookupOptional("response", ResultJson(p.response), [], "response");
  }
}
