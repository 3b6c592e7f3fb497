/** `TransportFabricBlockParser`: the client's decoder of ledger blocks into
    transport transactions (request and response envelopes) and transport
    events. A raw block is the nested record Fabric delivers; every link the
    decoder tests for nil is an `Option` here, and a chain of links the
    decoder tests together collapses into one `Option`. */
module BlockParser {
  import opened Common
  import opened Constants
  import opened Payload
  import opened Stub

  /** `payload.header.channel_header`. */
  datatype ChannelHeader = ChannelHeader(txId: string, channelId: string, timestamp: int)

  /** `chaincode_proposal_payload.input.chaincode_spec`: the chaincode id and
      the invocation arguments as text (`input.args`; None when `input` is nil). */
  datatype ChaincodeSpec = ChaincodeSpec(chaincodeId: Json, args: Option<seq<string>>)

  /** `extension.events`: the chaincode event of a transaction. */
  datatype ChaincodeEvent = ChaincodeEvent(eventName: string, chaincodeId: string, payload: string)

  /** `proposal_response_payload.extension`: the chaincode id, the response
      payload (None when `response` or its payload is nil) and the event. */
  datatype Extension = Extension(chaincodeId: Option<Json>, responsePayload: Option<string>, events: Option<ChaincodeEvent>)

  /** An action's `payload`: its chaincode spec (None when any link down to
      it is nil) and its endorsement extension (likewise). */
  datatype ActionPayload = ActionPayload(spec: Option<ChaincodeSpec>, extension: Option<Extension>)

  datatype Action = Action(payload: Option<ActionPayload>)

  /** An envelope's `payload`: the channel header (None when the header or
      the channel header is nil) and `data.actions` (None when `data` is nil). */
  datatype EnvelopePayload = EnvelopePayload(header: Option<ChannelHeader>, actions: Option<seq<Action>>)

  /** One entry of `block.data.data`. */
  datatype BlockData = BlockData(payload: Option<EnvelopePayload>)

  /** A block: `data.data` (None when `data` is nil) and `metadata.metadata`
      (None when it is not an array). */
  datatype Block = Block(
    hash: string, number: int, createdDate: int,
    data: Option<seq<Option<BlockData>>>, metadata: Option<seq<seq<int>>>)

  /** A decoded transaction; `blockMined` is set only by the batch decoder. */
  datatype Transaction = Transaction(
    hash: string, channel: string, createdDate: int, chaincode: Option<Json>,
    validationCode: Option<int>, request: Option<Json>, response: Option<Json>, blockMined: Option<int>)

  /** A decoded transport event. */
  datatype FabricEvent = FabricEvent(
    name: string, chaincode: string, data: Option<Json>, channel: string, transactionHash: string, createdDate: int)

  /** A decoded block; `isBatch` is set only by the batch decoder. */
  datatype ParsedBlock = ParsedBlock(
    hash: string, number: int, createdDate: int,
    events: seq<FabricEvent>, transactions: seq<Transaction>, isBatch: bool)

  /** A transaction as the ledger query returns it (`IFabricTransaction`). */
  datatype FabricTransaction = FabricTransaction(transactionEnvelope: Option<BlockData>, validationCode: Option<int>)

  // ---------------------------------------------------------------------------
  //  Events
  // ---------------------------------------------------------------------------

  /** `createEvent(name, header, chaincode, data)`. */
  function CreateEvent(name: string, header: ChannelHeader, chaincode: string, data: Option<Json>): FabricEvent
  {
    FabricEvent(name, chaincode, data, header.channelId, header.txId, header.timestamp)
  }

  /** Whether an object has both members (`ObjectUtil.instanceOf(payload, ['data', 'name'])`). */
  predicate HasDataAndName(value: Json)
  {
    Member(value, "data").Some? && Member(value, "name").Some?
  }

  /** The data of a single event: the decoded payload, unwrapped to its
      `data` when it is shaped `{data, name}` or names the event; the raw text
      when it is not JSON. Reading `name` of a decoded null throws. */
  function SingleEventData(codec: Codec, name: string, payload: string): (r: Result<Option<Json>>)
    ensures codec.parse(payload).Err? ==> r == Ok(Some(JStr(payload)))
    ensures codec.parse(payload).Ok? && HasDataAndName(codec.parse(payload).value) ==>
      r == Ok(Member(codec.parse(payload).value, "data"))
  {
    match codec.parse(payload)
    case Err(_) => Ok(Some(JStr(payload)))
    case Ok(value) =>
      if HasDataAndName(value) then Ok(Member(value, "data"))
      else if value.JNull? then Err(NullReference("name"))
      else if Member(value, "name") == Some(JStr(name)) then Ok(Member(value, "data"))
      else Ok(Some(value))
  }

  /** The name of an element of the event array; a name that is not a string
      counts as empty. */
  function ElementName(item: Json): string
  {
    match Member(item, "name")
    case Some(JStr(s)) => s
    case _ => ""
  }

  /** `TransformUtil.toJSON` of one element of the array: a text is decoded,
      anything else is kept. */
  function DecodeElement(codec: Codec, item: Json): Result<Json>
  {
    if item.JStr? then codec.parse(item.s) else Ok(item)
  }

  /** `TransformUtil.toJSONMany(items)`: every element decoded, in order;
      the first element that cannot be decoded makes the whole call throw. */
  function DecodeAll(codec: Codec, items: seq<Json>): (r: Result<seq<Json>>)
    ensures r.Ok? ==> |r.value| == |items|
    ensures r.Ok? ==> forall i :: 0 <= i < |items| ==> DecodeElement(codec, items[i]) == Ok(r.value[i])
    ensures r.Err? ==> exists i :: 0 <= i < |items| && DecodeElement(codec, items[i]) == Err(r.error)
    decreases |items|
  {
    if |items| == 0 then Ok([])
    else
      match DecodeElement(codec, items[0])
      case Err(e) => Err(e)
      case Ok(item) =>
        match DecodeAll(codec, items[1..])
        case Err(e) =>
          var i :| 0 <= i < |items[1..]| && DecodeElement(codec, items[1..][i]) == Err(e);
          assert DecodeElement(codec, items[i + 1]) == Err(e);
          Err(e)
        case Ok(rest) => Ok([item] + rest)
  }

  /** The decoding throws the error of the first element that cannot be
      decoded, whatever the elements are that follow it. */
  lemma {:induction false} DecodeAllFirstError(codec: Codec, items: seq<Json>, i: nat)
    requires i < |items| && DecodeElement(codec, items[i]).Err?
    requires forall j :: 0 <= j < i ==> DecodeElement(codec, items[j]).Ok?
    ensures DecodeAll(codec, items) == Err(DecodeElement(codec, items[i]).error)
    decreases i
  {
    if i > 0 {
      assert items[1..][i - 1] == items[i];
      DecodeAllFirstError(codec, items[1..], i - 1);
    }
  }

  /** `.map(item => createEvent(item.name, ...))` over the decoded elements,
      then the filter on the name: reading `name` of a null element throws;
      an element with an empty name gives no event. */
  function BuildEvents(header: ChannelHeader, chaincode: string, values: seq<Json>): (r: Result<seq<FabricEvent>>)
    ensures r.Err? <==> exists i :: 0 <= i < |values| && values[i].JNull?
    ensures r.Err? ==> r.error == NullReference("name")
    ensures r.Ok? ==> |r.value| <= |values|
    ensures r.Ok? ==> forall i :: 0 <= i < |r.value| ==>
      |r.value[i].name| > 0 && r.value[i].chaincode == chaincode
      && r.value[i].channel == header.channelId && r.value[i].transactionHash == header.txId
      && r.value[i].createdDate == header.timestamp
    decreases |values|
  {
    if |values| == 0 then Ok([])
    else if values[0].JNull? then Err(NullReference("name"))
    else
      match BuildEvents(header, chaincode, values[1..])
      case Err(e) =>
        var i :| 0 <= i < |values[1..]| && values[1..][i].JNull?;
        assert values[i + 1].JNull?;
        Err(e)
      case Ok(rest) =>
        assert forall i :: 0 < i < |values| ==> values[i] == values[1..][i - 1];
        var name := ElementName(values[0]);
        if |name| == 0 then Ok(rest) else Ok([CreateEvent(name, header, chaincode, Member(values[0], "data"))] + rest)
  }

  /** The events of the elements of the array: all of them are decoded
      first, then the events are built, those with an empty name dropped.
      A decoding error therefore wins over a null element before it. */
  function ElementEvents(codec: Codec, header: ChannelHeader, chaincode: string, items: seq<Json>): (r: Result<seq<FabricEvent>>)
    ensures DecodeAll(codec, items).Err? ==> r == Err(DecodeAll(codec, items).error)
    ensures DecodeAll(codec, items).Ok? ==> (r.Err? <==> exists i :: 0 <= i < |items| && DecodeElement(codec, items[i]) == Ok(JNull))
    ensures r.Ok? ==> |r.value| <= |items|
    ensures r.Ok? ==> forall i :: 0 <= i < |r.value| ==>
      |r.value[i].name| > 0 && r.value[i].chaincode == chaincode
      && r.value[i].channel == header.channelId && r.value[i].transactionHash == header.txId
      && r.value[i].createdDate == header.timestamp
  {
    match DecodeAll(codec, items)
    case Err(e) => Err(e)
    case Ok(values) =>
      assert forall i :: 0 <= i < |items| ==> (DecodeElement(codec, items[i]) == Ok(JNull) <==> values[i].JNull?);
      BuildEvents(header, chaincode, values)
  }

  /** An element that cannot be decoded makes the call throw its decoding
      error, even when a null element comes before it. */
  lemma ElementDecodeErrorFirst(codec: Codec, header: ChannelHeader, chaincode: string, items: seq<Json>, i: nat)
    requires i < |items| && DecodeElement(codec, items[i]).Err?
    requires forall j :: 0 <= j < i ==> DecodeElement(codec, items[j]).Ok?
    ensures ElementEvents(codec, header, chaincode, items) == Err(DecodeElement(codec, items[i]).error)
  {
    DecodeAllFirstError(codec, items, i);
  }

  /** `parseEvents(name, header, chaincode, payload)`: any other name than the
      transport event gives at most one event, named as the Fabric event;
      the transport event carries an array of events. Events with an empty
      name are dropped. */
  function ParseEvents(codec: Codec, name: string, header: ChannelHeader, chaincode: string, payload: string): (r: Result<seq<FabricEvent>>)
    ensures name != TRANSPORT_CHAINCODE_EVENT ==>
      (r.Ok? <==> SingleEventData(codec, name, payload).Ok?)
      && (r.Ok? ==> (|r.value| == 1 <==> |name| > 0) && |r.value| <= 1)
      && (r.Ok? && |name| > 0 ==> r.value[0] == CreateEvent(name, header, chaincode, SingleEventData(codec, name, payload).value))
    ensures name == TRANSPORT_CHAINCODE_EVENT && codec.parse(payload).Err? ==> r.Err?
    ensures r.Ok? ==> forall i :: 0 <= i < |r.value| ==>
      |r.value[i].name| > 0 && r.value[i].chaincode == chaincode
      && r.value[i].channel == header.channelId && r.value[i].transactionHash == header.txId
      && r.value[i].createdDate == header.timestamp
  {
    if name != TRANSPORT_CHAINCODE_EVENT then
      match SingleEventData(codec, name, payload)
      case Err(e) => Err(e)
      case Ok(data) => if |name| == 0 then Ok([]) else Ok([CreateEvent(name, header, chaincode, data)])
    else
      match codec.parse(payload)
      case Err(e) => Err(e)
      case Ok(value) =>
        if value.JArr? then ElementEvents(codec, header, chaincode, value.items)
        else Err(NullReference("map"))
  }

  /** The events queued on the chaincode side, as the client decodes them. */
  function Decoded(header: ChannelHeader, chaincode: string, events: seq<Event>): seq<FabricEvent>
    decreases |events|
  {
    if |events| == 0 then []
    else if |events[0].name| == 0 then Decoded(header, chaincode, events[1..])
    else [CreateEvent(events[0].name, header, chaincode, events[0].data)] + Decoded(header, chaincode, events[1..])
  }

  /** The event array element of one queued event reads back as that event. */
  lemma EventElement(codec: Codec, e: Event)
    requires RoundTrips(codec)
    ensures DecodeElement(codec, JStr(codec.stringify(EventJson(e)))) == Ok(EventJson(e))
    ensures ElementName(EventJson(e)) == e.name && Member(EventJson(e), "data") == e.data
  {
    assert codec.parse(codec.stringify(EventJson(e))) == Ok(EventJson(e));
    LookupCons("name", JStr(e.name), OptionalMember("data", e.data), "name");
    LookupCons("name", JStr(e.name), OptionalMember("data", e.data), "data");
    assert OptionalMember("data", e.data) == OptionalMember("data", e.data) + [];
    LookupOptional("data", e.data, [], "data");
  }

  /** The plain objects of the queued events. */
  function EventValues(events: seq<Event>): (r: seq<Json>)
    ensures |r| == |events| && forall i :: 0 <= i < |events| ==> r[i] == EventJson(events[i])
  {
    seq(|events|, i requires 0 <= i < |events| => EventJson(events[i]))
  }

  /** The elements of the event array decode into the events' plain objects. */
  lemma {:induction false} DecodeTexts(codec: Codec, events: seq<Event>)
    requires RoundTrips(codec)
    ensures DecodeAll(codec, EventTexts(codec, events)) == Ok(EventValues(events))
    decreases |events|
  {
    if |events| > 0 {
      EventElement(codec, events[0]);
      assert EventTexts(codec, events)[1..] == EventTexts(codec, events[1..]);
      DecodeTexts(codec, events[1..]);
      assert EventValues(events) == [EventJson(events[0])] + EventValues(events[1..]);
    }
  }

  /** The events' plain objects build back into the events, those with an
      empty name dropped. */
  lemma {:induction false} BuildDecoded(codec: Codec, header: ChannelHeader, chaincode: string, events: seq<Event>)
    requires RoundTrips(codec)
    ensures BuildEvents(header, chaincode, EventValues(events)) == Ok(Decoded(header, chaincode, events))
    decreases |events|
  {
    if |events| > 0 {
      EventElement(codec, events[0]);
      assert EventValues(events)[1..] == EventValues(events[1..]);
      BuildDecoded(codec, header, chaincode, events[1..]);
    }
  }

  lemma ElementsRoundTrip(codec: Codec, header: ChannelHeader, chaincode: string, events: seq<Event>)
    requires RoundTrips(codec)
    ensures ElementEvents(codec, header, chaincode, EventTexts(codec, events)) == Ok(Decoded(header, chaincode, events))
  {
    DecodeTexts(codec, events);
    BuildDecoded(codec, header, chaincode, events);
  }

  /** What the chaincode emits on `destroy` the client decodes back: the
      payload of the transport event gives the queued events in queue order,
      those with an empty name dropped. */
  lemma EventsRoundTrip(codec: Codec, header: ChannelHeader, chaincode: string, events: seq<Event>)
    requires RoundTrips(codec)
    ensures ParseEvents(codec, TRANSPORT_CHAINCODE_EVENT, header, chaincode, EventsPayload(codec, events))
      == Ok(Decoded(header, chaincode, events))
  {
    assert codec.parse(EventsPayload(codec, events)) == Ok(JArr(EventTexts(codec, events)));
    ElementsRoundTrip(codec, header, chaincode, events);
  }

  // ---------------------------------------------------------------------------
  //  Transactions
  // ---------------------------------------------------------------------------

  /** The action invokes the transport function with exactly two arguments. */
  predicate IsTransportCall(action: Action)
  {
    action.payload.Some? && action.payload.value.spec.Some?
    && action.payload.value.spec.value.args.Some?
    && |action.payload.value.spec.value.args.value| == 2
    && action.payload.value.spec.value.args.value[0] == TRANSPORT_FABRIC_METHOD
  }

  /** The action carries an endorsement response payload. */
  predicate HasResponse(action: Action)
  {
    action.payload.Some? && action.payload.value.extension.Some?
    && action.payload.value.extension.value.responsePayload.Some?
  }

  /** The text of the request argument of a transport call. */
  function RequestText(action: Action): string
    requires IsTransportCall(action)
  {
    action.payload.value.spec.value.args.value[1]
  }

  /** The text of the endorsement's response payload. */
  function ResponseText(action: Action): string
    requires HasResponse(action)
  {
    action.payload.value.extension.value.responsePayload.value
  }

  /** `parseTransactionBlockAction(transaction, action)`: a transport call
      sets the request (the decoded second argument) and the chaincode; the
      endorsement's chaincode id overrides the latter, and its response
      payload, when present, is decoded into the response. A text that is not
      JSON throws. */
  function ApplyAction(codec: Codec, t: Transaction, action: Action): (r: Result<Transaction>)
    ensures r.Ok? ==>
      r.value.hash == t.hash && r.value.channel == t.channel && r.value.createdDate == t.createdDate
      && r.value.validationCode == t.validationCode && r.value.blockMined == t.blockMined
    ensures !IsTransportCall(action) ==> r == Ok(t)
    ensures IsTransportCall(action) ==>
      (r.Ok? ==> codec.parse(RequestText(action)).Ok? && r.value.request == Some(codec.parse(RequestText(action)).value))
      && (codec.parse(RequestText(action)).Err? ==> r == Err(codec.parse(RequestText(action)).error))
      && (r.Ok? ==> r.value.chaincode.Some?)
    ensures IsTransportCall(action) && HasResponse(action) ==>
      (r.Ok? ==> codec.parse(ResponseText(action)).Ok? && r.value.response == Some(codec.parse(ResponseText(action)).value))
      && (codec.parse(ResponseText(action)).Err? ==> r.Err?)
    ensures !HasResponse(action) && r.Ok? ==> r.value.response == t.response
  {
    if !IsTransportCall(action) then Ok(t)
    else
      var spec := action.payload.value.spec.value;
      match codec.parse(spec.args.value[1])
      case Err(e) => Err(e)
      case Ok(request) =>
        var t1 := t.(request := Some(request), chaincode := Some(spec.chaincodeId));
        match action.payload.value.extension
        case None => Ok(t1)
        case Some(extension) =>
          var t2 := if extension.chaincodeId.Some? && !extension.chaincodeId.value.JNull? then t1.(chaincode := extension.chaincodeId) else t1;
          match extension.responsePayload
          case None => Ok(t2)
          case Some(payload) =>
            match codec.parse(payload)
            case Err(e) => Err(e)
            case Ok(response) => Ok(t2.(response := Some(response)))
  }

  /** The actions applied in order to a transaction record. */
  function ApplyActions(codec: Codec, t: Transaction, actions: seq<Action>): (r: Result<Transaction>)
    ensures r.Ok? ==>
      r.value.hash == t.hash && r.value.channel == t.channel && r.value.createdDate == t.createdDate
      && r.value.validationCode == t.validationCode && r.value.blockMined == t.blockMined
    ensures r.Ok? && r.value.request != t.request ==> exists i :: 0 <= i < |actions| && IsTransportCall(actions[i])
    ensures r.Ok? && r.value.response != t.response ==>
      exists i :: 0 <= i < |actions| && IsTransportCall(actions[i]) && HasResponse(actions[i])
    decreases |actions|
  {
    if |actions| == 0 then Ok(t)
    else
      match ApplyActions(codec, t, actions[..|actions| - 1])
      case Err(e) => Err(e)
      case Ok(front) =>
        assert forall i :: 0 <= i < |actions| - 1 ==> actions[..|actions| - 1][i] == actions[i];
        ApplyAction(codec, front, actions[|actions| - 1])
  }

  /** The empty record of a transaction with a channel header. */
  function NewTransaction(header: ChannelHeader): Transaction
  {
    Transaction(header.txId, header.channelId, header.timestamp, None, None, None, None, None)
  }

  /** `parseTransactionBlockData(data)`: nothing without a channel header;
      otherwise the header's id, channel and time with every action applied. */
  function TransactionOf(codec: Codec, data: Option<BlockData>): (r: Result<Option<Transaction>>)
    ensures data.None? || data.value.payload.None? || data.value.payload.value.header.None? ==> r == Ok(None)
    ensures r.Ok? && r.value.Some? ==>
      var header := data.value.payload.value.header.value;
      r.value.value.hash == header.txId && r.value.value.channel == header.channelId
      && r.value.value.createdDate == header.timestamp && r.value.value.validationCode.None?
      && r.value.value.blockMined.None?
    ensures r.Ok? && r.value.Some? && r.value.value.request.Some? ==>
      data.value.payload.value.actions.Some? &&
      exists i :: 0 <= i < |data.value.payload.value.actions.value| && IsTransportCall(data.value.payload.value.actions.value[i])
  {
    if data.None? || data.value.payload.None? || data.value.payload.value.header.None? then Ok(None)
    else
      var payload := data.value.payload.value;
      var t := NewTransaction(payload.header.value);
      if payload.actions.None? then Ok(Some(t))
      else
        match ApplyActions(codec, t, payload.actions.value)
        case Err(e) => Err(e)
        case Ok(item) => Ok(Some(item))
  }

  /** `parseTransactionBlockData(data)`, action by action. */
  method ParseTransactionBlockData(codec: Codec, data: Option<BlockData>) returns (r: Result<Option<Transaction>>)
    ensures r == TransactionOf(codec, data)
  {
    if data.None? || data.value.payload.None? || data.value.payload.value.header.None? {
      return Ok(None);
    }
    var payload := data.value.payload.value;
    var item := NewTransaction(payload.header.value);
    if payload.actions.None? {
      return Ok(Some(item));
    }
    var actions := payload.actions.value;
    var i := 0;
    while i < |actions|
      invariant 0 <= i <= |actions|
      invariant ApplyActions(codec, NewTransaction(payload.header.value), actions[..i]) == Ok(item)
    {
      assert actions[..i + 1][..i] == actions[..i];
      var next := ApplyAction(codec, item, actions[i]);
      if next.Err? {
        ApplyActionsFails(codec, NewTransaction(payload.header.value), actions, i);
        return Err(next.error);
      }
      item := next.value;
      i := i + 1;
    }
    assert actions[..i] == actions;
    r := Ok(Some(item));
  }

  /** When the action at `i` fails after the first `i` succeeded, so does the
      whole sequence, with that error. */
  lemma {:induction false} ApplyActionsFails(codec: Codec, t: Transaction, actions: seq<Action>, i: nat)
    requires i < |actions| && ApplyActions(codec, t, actions[..i]).Ok?
    requires ApplyAction(codec, ApplyActions(codec, t, actions[..i]).value, actions[i]).Err?
    ensures ApplyActions(codec, t, actions) == ApplyAction(codec, ApplyActions(codec, t, actions[..i]).value, actions[i])
    decreases |actions| - i
  {
    if i + 1 == |actions| {
      assert actions[..|actions| - 1] == actions[..i];
    } else {
      assert actions[..|actions| - 1][..i] == actions[..i];
      ApplyActionsFails(codec, t, actions[..|actions| - 1], i);
      assert actions[..|actions| - 1][i] == actions[i];
    }
  }

  /** `parseTransaction(data)`: the envelope's transaction with the given
      validation code; an envelope with no transaction throws. */
  function ParseTransaction(codec: Codec, data: FabricTransaction): (r: Result<Transaction>)
    ensures TransactionOf(codec, data.transactionEnvelope) == Ok(None) ==> r.Err?
    ensures r.Ok? ==>
      TransactionOf(codec, data.transactionEnvelope) == Ok(Some(r.value.(validationCode := None)))
      && r.value.validationCode == data.validationCode
  {
    match TransactionOf(codec, data.transactionEnvelope)
    case Err(e) => Err(e)
    case Ok(None) => Err(NullReference("validationCode"))
    case Ok(Some(item)) => Ok(item.(validationCode := data.validationCode))
  }

  // ---------------------------------------------------------------------------
  //  Events of a block entry
  // ---------------------------------------------------------------------------

  /** `parseEventBlockAction(header, action)`: the events of the endorsement's
      chaincode event. The action's payload is read without a nil check. */
  function EventsOfAction(codec: Codec, header: ChannelHeader, action: Action): Result<seq<FabricEvent>>
  {
    if action.payload.None? then Err(NullReference("action"))
    else if action.payload.value.extension.None? || action.payload.value.extension.value.events.None? then Ok([])
    else
      var e := action.payload.value.extension.value.events.value;
      ParseEvents(codec, e.eventName, header, e.chaincodeId, e.payload)
  }

  /** The events of the actions, in order. */
  function EventsOfActions(codec: Codec, header: ChannelHeader, actions: seq<Action>): Result<seq<FabricEvent>>
    decreases |actions|
  {
    if |actions| == 0 then Ok([])
    else
      match EventsOfActions(codec, header, actions[..|actions| - 1])
      case Err(e) => Err(e)
      case Ok(front) =>
        match EventsOfAction(codec, header, actions[|actions| - 1])
        case Err(e) => Err(e)
        case Ok(last) => Ok(front + last)
  }

  /** `parseEventBlockData(data)`: no events without a channel header. */
  function EventsOf(codec: Codec, data: Option<BlockData>): (r: Result<seq<FabricEvent>>)
    ensures data.None? || data.value.payload.None? || data.value.payload.value.header.None? ==> r == Ok([])
  {
    if data.None? || data.value.payload.None? || data.value.payload.value.header.None? then Ok([])
    else if data.value.payload.value.actions.None? then Ok([])
    else EventsOfActions(codec, data.value.payload.value.header.value, data.value.payload.value.actions.value)
  }

  /** Every event of a transport event's actions carries the entry's header. */
  lemma {:induction false} EventsOfActionsHeader(codec: Codec, header: ChannelHeader, actions: seq<Action>)
    ensures EventsOfActions(codec, header, actions).Ok? ==>
      forall e :: e in EventsOfActions(codec, header, actions).value ==>
        e.channel == header.channelId && e.transactionHash == header.txId && |e.name| > 0
    decreases |actions|
  {
    if |actions| > 0 {
      EventsOfActionsHeader(codec, header, actions[..|actions| - 1]);
    }
  }

  /** `parseEventBlockData(data)`, action by action. */
  method ParseEventBlockData(codec: Codec, data: Option<BlockData>) returns (r: Result<seq<FabricEvent>>)
    ensures r == EventsOf(codec, data)
  {
    if data.None? || data.value.payload.None? || data.value.payload.value.header.None? {
      return Ok([]);
    }
    if data.value.payload.value.actions.None? {
      return Ok([]);
    }
    var header := data.value.payload.value.header.value;
    var actions := data.value.payload.value.actions.value;
    var items: seq<FabricEvent> := [];
    var i := 0;
    while i < |actions|
      invariant 0 <= i <= |actions|
      invariant EventsOfActions(codec, header, actions[..i]) == Ok(items)
    {
      assert actions[..i + 1][..i] == actions[..i];
      var more := EventsOfAction(codec, header, actions[i]);
      if more.Err? {
        EventsOfActionsFails(codec, header, actions, i);
        return Err(more.error);
      }
      items := items + more.value;
      i := i + 1;
    }
    assert actions[..i] == actions;
    r := Ok(items);
  }

  lemma {:induction false} EventsOfActionsFails(codec: Codec, header: ChannelHeader, actions: seq<Action>, i: nat)
    requires i < |actions| && EventsOfActions(codec, header, actions[..i]).Ok?
    requires EventsOfAction(codec, header, actions[i]).Err?
    ensures EventsOfActions(codec, header, actions) == Err(EventsOfAction(codec, header, actions[i]).error)
    decreases |actions| - i
  {
    if i + 1 == |actions| {
      assert actions[..|actions| - 1] == actions[..i];
    } else {
      assert actions[..|actions| - 1][..i] == actions[..i];
      assert actions[..|actions| - 1][i] == actions[i];
      EventsOfActionsFails(codec, header, actions[..|actions| - 1], i);
    }
  }

  // ---------------------------------------------------------------------------
  //  Blocks
  // ---------------------------------------------------------------------------

  /** The validation codes: the last metadata entry, or none. */
  function ValidationCodes(metadata: Option<seq<seq<int>>>): seq<int>
  {
    if metadata.Some? && |metadata.value| > 0 then metadata.value[|metadata.value| - 1] else []
  }

  /** `validationCodes[i]`: undefined past the end. */
  function CodeAt(codes: seq<int>, i: nat): Option<int>
  {
    if i < |codes| then Some(codes[i]) else None
  }

  /** The transactions and events of the first `n` entries, in order; each
      transaction gets the code at its own entry's index. */
  function Scan(codec: Codec, data: seq<Option<BlockData>>, codes: seq<int>, n: nat): Result<(seq<Transaction>, seq<FabricEvent>)>
    requires n <= |data|
  {
    if n == 0 then Ok(([], []))
    else
      match Scan(codec, data, codes, n - 1)
      case Err(e) => Err(e)
      case Ok(acc) =>
        match TransactionOf(codec, data[n - 1])
        case Err(e) => Err(e)
        case Ok(t) =>
          match EventsOf(codec, data[n - 1])
          case Err(e) => Err(e)
          case Ok(events) =>
            var txs := if t.Some? then acc.0 + [t.value.(validationCode := CodeAt(codes, n - 1))] else acc.0;
            Ok((txs, acc.1 + events))
  }

  /** `parse(block)`: nothing (undefined) for a block without entries. */
  function BlockOf(codec: Codec, block: Block): Result<Option<ParsedBlock>>
  {
    if block.data.None? || |block.data.value| == 0 then Ok(None)
    else
      match Scan(codec, block.data.value, ValidationCodes(block.metadata), |block.data.value|)
      case Err(e) => Err(e)
      case Ok(acc) => Ok(Some(ParsedBlock(block.hash, block.number, block.createdDate, acc.1, acc.0, false)))
  }

  /** `parse(block)`, entry by entry. */
  method Parse(codec: Codec, block: Block) returns (r: Result<Option<ParsedBlock>>)
    ensures r == BlockOf(codec, block)
    ensures block.data.None? || |block.data.value| == 0 ==> r == Ok(None)
    ensures r.Ok? && r.value.Some? ==>
      r.value.value.hash == block.hash && r.value.value.number == block.number && !r.value.value.isBatch
  {
    if block.data.None? || |block.data.value| == 0 {
      return Ok(None);
    }
    var data := block.data.value;
    var codes := ValidationCodes(block.metadata);
    var transactions: seq<Transaction> := [];
    var events: seq<FabricEvent> := [];
    var i := 0;
    while i < |data|
      invariant 0 <= i <= |data|
      invariant Scan(codec, data, codes, i) == Ok((transactions, events))
    {
      var transaction := ParseTransactionBlockData(codec, data[i]);
      if transaction.Err? {
        assert Scan(codec, data, codes, i + 1) == Err(transaction.error);
        ScanStops(codec, data, codes, i + 1, |data|);
        return Err(transaction.error);
      }
      if transaction.value.Some? {
        transactions := transactions + [transaction.value.value.(validationCode := CodeAt(codes, i))];
      }
      var event := ParseEventBlockData(codec, data[i]);
      if event.Err? {
        assert Scan(codec, data, codes, i + 1) == Err(event.error);
        ScanStops(codec, data, codes, i + 1, |data|);
        return Err(event.error);
      }
      events := events + event.value;
      i := i + 1;
    }
    r := Ok(Some(ParsedBlock(block.hash, block.number, block.createdDate, events, transactions, false)));
  }

  /** A scan that throws at some entry throws the same error however many
      entries follow. */
  lemma {:induction false} ScanStops(codec: Codec, data: seq<Option<BlockData>>, codes: seq<int>, n: nat, m: nat)
    requires n <= m <= |data| && Scan(codec, data, codes, n).Err?
    ensures Scan(codec, data, codes, m) == Scan(codec, data, codes, n)
    decreases m - n
  {
    if m > n {
      ScanStops(codec, data, codes, n, m - 1);
    }
  }

  /** Whether an entry holds a transaction. */
  predicate HoldsTransaction(codec: Codec, data: Option<BlockData>)
  {
    TransactionOf(codec, data).Ok? && TransactionOf(codec, data).value.Some?
  }

  /** The indices of the first `n` entries that hold a transaction. */
  function Origins(codec: Codec, data: seq<Option<BlockData>>, n: nat): (r: seq<nat>)
    requires n <= |data|
    ensures forall k :: 0 <= k < |r| ==> r[k] < n && HoldsTransaction(codec, data[r[k]])
    ensures forall k, l :: 0 <= k < l < |r| ==> r[k] < r[l]
    ensures forall i :: 0 <= i < n && HoldsTransaction(codec, data[i]) ==> i in r
  {
    if n == 0 then []
    else if HoldsTransaction(codec, data[n - 1]) then Origins(codec, data, n - 1) + [n - 1]
    else Origins(codec, data, n - 1)
  }

  /** The alignment of validation codes: the k-th decoded transaction is the
      transaction of the entry at index `Origins[k]` and carries the code at
      that same index; entries without a transaction are skipped without
      shifting the codes of the later ones. */
  lemma {:induction false} ScanAligned(codec: Codec, data: seq<Option<BlockData>>, codes: seq<int>, n: nat)
    requires n <= |data| && Scan(codec, data, codes, n).Ok?
    ensures |Scan(codec, data, codes, n).value.0| == |Origins(codec, data, n)|
    ensures forall k :: 0 <= k < |Origins(codec, data, n)| ==>
      Scan(codec, data, codes, n).value.0[k]
        == TransactionOf(codec, data[Origins(codec, data, n)[k]]).value.value.(validationCode := CodeAt(codes, Origins(codec, data, n)[k]))
  {
    if n > 0 {
      ScanAligned(codec, data, codes, n - 1);
    }
  }
}
