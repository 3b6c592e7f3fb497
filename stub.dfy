/** `TransportFabricStub`: the state and event interface a command handler
    gets, layered over the chaincode stub of the transaction. */
module Stub {
  import opened Common
  import opened Constants
  import opened Ledger
  import opened Payload

  /** An `ITransportEvent`: a name and optional data. */
  datatype Event = Event(name: string, data: Option<Json>)

  /** The plain object of an event. */
  function EventJson(e: Event): Json
  {
    JObj([("name", JStr(e.name))] + OptionalMember("data", e.data))
  }

  /** The payload `dispatchEvents` sets: the JSON text of an array whose
      elements are the JSON texts of the queued events, in queue order. */
  function EventsPayload(codec: Codec, events: seq<Event>): string
  {
    codec.stringify(JArr(EventTexts(codec, events)))
  }

  /** The JSON texts of the queued events, in queue order. */
  function EventTexts(codec: Codec, events: seq<Event>): seq<Json>
  {
    if |events| == 0 then [] else [JStr(codec.stringify(EventJson(events[0])))] + EventTexts(codec, events[1..])
  }

  /** The chaincode events `destroy` sets for a queue: none for a null or
      empty queue, otherwise one carrying the whole queue. */
  function DestroyEvents(codec: Codec, queue: Option<seq<Event>>): (r: seq<(string, string)>)
    ensures |r| <= 1
    ensures |r| == 1 <==> queue.Some? && |queue.value| > 0
  {
    if queue.None? || |queue.value| == 0 then [] else [(TRANSPORT_CHAINCODE_EVENT, EventsPayload(codec, queue.value))]
  }

  /** A class type handed to `getState`: how a plain value becomes an instance,
      and the validator's verdict on it (both taken as given). */
  datatype ClassType = ClassType(toClass: Json -> Json, validate: Json -> Option<Error>)

  /** The transformations `putState` applies (class-validator,
      `TransformUtil.fromClass`, `ObjectUtil.sortKeys(item, true)`), taken as
      given. */
  datatype Transforms = Transforms(validate: Json -> Option<Error>, fromClass: Json -> Json, sortKeys: Json -> Json)

  /** `getStateRaw` on stored bytes: a zero-length value reads as null. */
  function RawValue(stored: string): (r: Option<string>)
    ensures r.Some? <==> |stored| > 0
    ensures r.Some? ==> r.value == stored
  {
    if |stored| > 0 then Some(stored) else None
  }

  /** The decoding half of `getState`: null stays null; otherwise the JSON
      text is parsed and, when a class type is given and the value is not
      null, turned into an instance and, if asked, validated. */
  function DecodeState(codec: Codec, raw: Option<string>, classType: Option<ClassType>, isNeedValidate: bool): (r: Result<Json>)
    ensures raw.None? ==> r == Ok(JNull)
    ensures raw.Some? && codec.parse(raw.value).Err? ==> r == Err(codec.parse(raw.value).error)
    ensures raw.Some? && codec.parse(raw.value).Ok? && (classType.None? || codec.parse(raw.value).value.JNull?) ==>
      r == codec.parse(raw.value)
    ensures raw.Some? && codec.parse(raw.value).Ok? && !codec.parse(raw.value).value.JNull? && classType.Some? ==>
      (r.Ok? ==> r.value == classType.value.toClass(codec.parse(raw.value).value))
      && (r.Ok? && isNeedValidate ==> classType.value.validate(r.value).None?)
      && (r.Err? <==> isNeedValidate && classType.value.validate(classType.value.toClass(codec.parse(raw.value).value)).Some?)
  {
    if raw.None? then Ok(JNull)
    else
      match codec.parse(raw.value)
      case Err(e) => Err(e)
      case Ok(value) =>
        if classType.None? || value.JNull? then Ok(value)
        else
          var item := classType.value.toClass(value);
          if isNeedValidate && classType.value.validate(item).Some? then Err(classType.value.validate(item).value)
          else Ok(item)
  }

  /** The preparing half of `putState`: validate, transform, sort keys, each
      only when asked. */
  function PreparePut(t: Transforms, value: Json, isNeedValidate: bool, isNeedTransform: bool, isNeedSortKeys: bool): (r: Result<Json>)
    ensures r.Err? <==> isNeedValidate && t.validate(value).Some?
    ensures r.Ok? ==>
      r.value == (var item := if isNeedTransform then t.fromClass(value) else value;
                  if isNeedSortKeys then t.sortKeys(item) else item)
  {
    if isNeedValidate && t.validate(value).Some? then Err(t.validate(value).value)
    else
      var item := if isNeedTransform then t.fromClass(value) else value;
      Ok(if isNeedSortKeys then t.sortKeys(item) else item)
  }

  /** The `TypeError` JavaScript raises when a method is called on null. */
  function NullReference(what: string): Error
  {
    Fail("Cannot read properties of null (reading '" + what + "')")
  }

  /** The user id the command options carry, unset when the options are nil. */
  function UserIdOf(options: Option<Json>): Option<Json>
  {
    if IsNil(options) then None else Member(options.value, "userId")
  }

  /** The public key of the options' signature, unset when the options or the
      signature are nil. */
  function PublicKeyOf(options: Option<Json>): Option<Json>
  {
    if IsNil(options) then None
    else
      var signature := Member(options.value, "signature");
      if IsNil(signature) then None else Member(signature.value, "publicKey")
  }

  class TransportFabricStub {
    /** The chaincode stub (`_stub`) while the wrapper is alive. */
    const ledger: ChaincodeStub
    /** Whether a transport (`_transport`) was given. */
    const hasTransport: bool
    const requestId: Option<string>
    const userId: Option<Json>
    const userPublicKey: Option<Json>
    const codec: Codec
    /** Set by `destroy`, which nulls `_stub` and `_transport`. */
    var destroyed: bool
    /** The events queued by `dispatch`; null (None) once destroyed. */
    var eventsToDispatch: Option<seq<Event>>

    ghost predicate Valid()
      reads this
    {
      destroyed <==> eventsToDispatch.None?
    }

    /** `new TransportFabricStub(stub, requestId, options, transport)`. */
    constructor (ledger: ChaincodeStub, requestId: Option<string>, options: Option<Json>, hasTransport: bool, codec: Codec)
      ensures Valid() && !destroyed && eventsToDispatch == Some([])
      ensures this.ledger == ledger && this.requestId == requestId && this.hasTransport == hasTransport && this.codec == codec
      ensures userId == UserIdOf(options) && userPublicKey == PublicKeyOf(options)
      ensures IsNil(options) ==> userId.None? && userPublicKey.None?
    {
      this.ledger := ledger;
      this.requestId := requestId;
      this.hasTransport := hasTransport;
      this.codec := codec;
      userId := UserIdOf(options);
      userPublicKey := PublicKeyOf(options);
      destroyed := false;
      eventsToDispatch := Some([]);
    }

    /** The `stub` getter. */
    function Stub(): ChaincodeStub?
      reads this
    {
      if destroyed then null else ledger
    }

    /** `getStateRaw(key)`: null for a missing or zero-length value. */
    function GetStateRaw(key: string): (r: Result<Option<string>>)
      reads this
      ensures r.Err? <==> destroyed
      ensures r.Ok? ==> (r.value.Some? <==> key in ledger.world && |ledger.world[key]| > 0)
      ensures r.Ok? && r.value.Some? ==> r.value.value == ledger.world[key]
    {
      if destroyed then Err(NullReference("getState")) else Ok(RawValue(ledger.GetState(key)))
    }

    /** `hasState(key)`: whether `getStateRaw(key)` is not null. */
    function HasState(key: string): (r: Result<bool>)
      reads this
      ensures r.Ok? <==> GetStateRaw(key).Ok?
      ensures r.Ok? ==> (r.value <==> GetStateRaw(key).value.Some?)
    {
      match GetStateRaw(key)
      case Err(e) => Err(e)
      case Ok(item) => Ok(item.Some?)
    }

    /** `getState(key, type, isNeedValidate)`. */
    function GetState(key: string, classType: Option<ClassType>, isNeedValidate: bool): (r: Result<Json>)
      reads this
      ensures destroyed ==> r.Err?
      ensures !destroyed && classType.None? ==>
        r == DecodeState(codec, RawValue(ledger.GetState(key)), None, isNeedValidate)
      ensures !destroyed && (key !in ledger.world || |ledger.world[key]| == 0) ==> r == Ok(JNull)
    {
      match GetStateRaw(key)
      case Err(e) => Err(e)
      case Ok(raw) => DecodeState(codec, raw, classType, isNeedValidate)
    }

    /** `putStateRaw(key, item)`; `Buffer.from(null)` throws. */
    method PutStateRaw(key: string, item: Option<string>) returns (r: Result<()>)
      modifies ledger`writes
      ensures r.Ok? <==> !destroyed && item.Some?
      ensures r.Ok? ==> ledger.writes == old(ledger.writes) + [PutOp(key, item.value)]
      ensures r.Err? ==> ledger.writes == old(ledger.writes)
    {
      if destroyed {
        return Err(NullReference("putState"));
      }
      if item.None? {
        return Err(Fail("The first argument must be of type string"));
      }
      ledger.PutState(key, item.value);
      r := Ok(());
    }

    /** `putState(key, value, isNeedValidate, isNeedTransform, isNeedSortKeys)`:
        stores the JSON text of the prepared value and returns that value. */
    method PutState(key: string, value: Json, t: Transforms, isNeedValidate: bool, isNeedTransform: bool, isNeedSortKeys: bool)
      returns (r: Result<Json>)
      modifies ledger`writes
      ensures PreparePut(t, value, isNeedValidate, isNeedTransform, isNeedSortKeys).Err? || destroyed ==>
        r.Err? && ledger.writes == old(ledger.writes)
      ensures PreparePut(t, value, isNeedValidate, isNeedTransform, isNeedSortKeys).Err? ==>
        r == Err(PreparePut(t, value, isNeedValidate, isNeedTransform, isNeedSortKeys).error)
      ensures r.Ok? ==>
        r == PreparePut(t, value, isNeedValidate, isNeedTransform, isNeedSortKeys)
        && ledger.writes == old(ledger.writes) + [PutOp(key, codec.stringify(r.value))]
      ensures !destroyed && PreparePut(t, value, isNeedValidate, isNeedTransform, isNeedSortKeys).Ok? ==> r.Ok?
    {
      var prepared := PreparePut(t, value, isNeedValidate, isNeedTransform, isNeedSortKeys);
      if prepared.Err? {
        return Err(prepared.error);
      }
      var written := PutStateRaw(key, Some(codec.stringify(prepared.value)));
      if written.Err? {
        return Err(written.error);
      }
      r := prepared;
    }

    /** `removeState(key)`. */
    method RemoveState(key: string) returns (r: Result<()>)
      modifies ledger`writes
      ensures r.Ok? <==> !destroyed
      ensures r.Ok? ==> ledger.writes == old(ledger.writes) + [DeleteOp(key)]
      ensures r.Err? ==> ledger.writes == old(ledger.writes)
    {
      if destroyed {
        return Err(NullReference("deleteState"));
      }
      ledger.DeleteState(key);
      r := Ok(());
    }

    /** `dispatch(event, isNeedValidate)`: validate, hand the event to the
        transport, queue it. */
    method Dispatch(event: Event, isNeedValidate: bool, validate: Event -> Option<Error>) returns (r: Result<()>)
      requires Valid()
      modifies this`eventsToDispatch
      ensures Valid()
      ensures r.Ok? <==> !(isNeedValidate && validate(event).Some?) && hasTransport && !destroyed
      ensures r.Ok? ==> eventsToDispatch == Some(old(eventsToDispatch).value + [event])
      ensures r.Err? ==> eventsToDispatch == old(eventsToDispatch)
    {
      if isNeedValidate && validate(event).Some? {
        return Err(validate(event).value);
      }
      if destroyed || !hasTransport {
        return Err(NullReference("dispatch"));
      }
      eventsToDispatch := Some(eventsToDispatch.value + [event]);
      r := Ok(());
    }

    /** `dispatchEvents()`: nothing for an empty (or null) queue; otherwise one
        chaincode event named `TRANSPORT_CHAINCODE_EVENT` carrying them all. */
    method DispatchEvents()
      requires Valid()
      modifies ledger`events
      ensures eventsToDispatch.None? || |eventsToDispatch.value| == 0 ==> ledger.events == old(ledger.events)
      ensures eventsToDispatch.Some? && |eventsToDispatch.value| > 0 ==>
        ledger.events == old(ledger.events) + [(TRANSPORT_CHAINCODE_EVENT, EventsPayload(codec, eventsToDispatch.value))]
    {
      if eventsToDispatch.None? || |eventsToDispatch.value| == 0 {
        return;
      }
      ledger.SetEvent(TRANSPORT_CHAINCODE_EVENT, EventsPayload(codec, eventsToDispatch.value));
    }

    /** `destroy()`: emit the queued events, then drop the queue, the stub and
        the transport. */
    method Destroy()
      requires Valid()
      modifies this`destroyed, this`eventsToDispatch, ledger`events
      ensures Valid() && destroyed
      ensures ledger.events == old(ledger.events) + DestroyEvents(codec, old(eventsToDispatch))
    {
      DispatchEvents();
      eventsToDispatch := None;
      destroyed := true;
    }

    /** The `transactionHash` getter: null once the stub is gone. */
    function TransactionHash(): (r: Option<string>)
      reads this
      ensures r.None? <==> destroyed
      ensures r.Some? ==> r.value == ledger.txId
    {
      if destroyed then None else Some(ledger.txId)
    }

    /** The `transactionDate` getter, in milliseconds. */
    function TransactionDate(): (r: Option<int>)
      reads this
      ensures destroyed ==> r.None?
      ensures !destroyed ==> r == ledger.txTime
    {
      if destroyed then None else ledger.txTime
    }
  }

  /** What `putState` stores is what `getState` reads once the write is
      committed: with a JSON codec that round-trips and never produces an
      empty text, reading the key from the committed world gives the stored
      value back. */
  lemma PutThenGet(codec: Codec, world: map<string, string>, key: string, item: Json, isNeedValidate: bool)
    requires RoundTrips(codec) && |codec.stringify(item)| > 0
    ensures var committed := Apply(world, [PutOp(key, codec.stringify(item))]);
      DecodeState(codec, RawValue(if key in committed then committed[key] else ""), None, isNeedValidate) == Ok(item)
  {
    var committed := Apply(world, [PutOp(key, codec.stringify(item))]);
    assert committed == Apply(world[key := codec.stringify(item)], []);
    assert codec.parse(codec.stringify(item)) == Ok(item);
  }
}
