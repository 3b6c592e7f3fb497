/** `TransportFabricSender` and `TransportFabricSenderBatch`: the client side
    of the transport. It builds request envelopes, submits or evaluates them,
    keeps a table of the commands that wait for a reply, reads replies (inline
    or, for a batching chaincode, out of the blocks that carry a flush), turns
    Fabric failures back into transport errors and keeps the connection
    state. The Fabric SDK is not modelled: a connection attempt, a
    transaction and the ledger queries are outcomes given as parameters. */
module Sender {
  import opened Common
  import opened Strings
  import opened Constants
  import opened Payload
  import opened BlockParser
  import opened BlockParserBatch
  import Stub

  // ---------------------------------------------------------------------------
  //  Errors out of Fabric failures
  // ---------------------------------------------------------------------------

  /** The text Fabric puts before the chaincode's own failure message. */
  const FAILURE_PREFIX: string := "transaction returned with failure:"

  /** The chaincode's message with Fabric's prefix dropped and trimmed. */
  function FailureText(message: string): string
  {
    Trim(RemoveFirst(message, FAILURE_PREFIX))
  }

  /** A response envelope whose `response` is an error. */
  predicate CarriesError(value: Json)
  {
    Member(value, "response").Some? && IsErrorJson(Member(value, "response").value)
  }

  /** `parseError(error)`: the transport error inside a chaincode failure
      message, without its stack; none when the message is not JSON or does
      not carry an error. */
  function ParseError(codec: Codec, message: string): (r: Option<Error>)
    ensures r.Some? <==> codec.parse(FailureText(message)).Ok? && CarriesError(codec.parse(FailureText(message)).value)
    ensures r.Some? ==> r.value.stack.None?
  {
    match codec.parse(FailureText(message))
    case Err(_) => None
    case Ok(value) =>
      if CarriesError(value) then Some(ErrorFromJson(Member(value, "response").value).(stack := None)) else None
  }

  /** A failure the SDK reports: the error itself, whether it already is a
      transport error (`ExtendedError`), and the messages of the peers'
      `responses` and `endorsements` (None for a nil item). */
  datatype SendFailure = SendFailure(
    error: Error, isExtended: bool, responses: seq<Option<string>>, endorsements: seq<Option<string>>)

  /** The item `parseChaincodeError` reads: the first response, else the
      first endorsement. */
  function FirstItem(f: SendFailure): Option<string>
  {
    if |f.responses| > 0 then f.responses[0]
    else if |f.endorsements| > 0 then f.endorsements[0]
    else None
  }

  /** The error `parseChaincodeError` falls back on. */
  function SendError(name: string, message: string): Error
  {
    Fail("Unable to send \"" + name + "\" command request: " + message)
  }

  /** `parseChaincodeError(command, error)`: the error carried by the first
      response (or endorsement); the generic error when that item carries
      none; the original error when there is no item. */
  function ParseChaincodeError(codec: Codec, name: string, f: SendFailure): (r: Error)
    ensures FirstItem(f).None? ==> r == f.error
    ensures FirstItem(f).Some? && ParseError(codec, FirstItem(f).value).Some? ==> r == ParseError(codec, FirstItem(f).value).value
    ensures FirstItem(f).Some? && ParseError(codec, FirstItem(f).value).None? ==> r == SendError(name, f.error.message)
  {
    var item := FirstItem(f);
    if item.None? then f.error
    else
      match ParseError(codec, item.value)
      case Some(e) => e
      case None => SendError(name, f.error.message)
  }

  /** The endorsements are read only when there is no response. */
  lemma ResponsesFirst(codec: Codec, name: string, f: SendFailure, endorsements: seq<Option<string>>)
    requires |f.responses| > 0
    ensures ParseChaincodeError(codec, name, f) == ParseChaincodeError(codec, name, f.(endorsements := endorsements))
  {
  }

  /** `parseTransactionError`: a transport error is kept as it is. */
  function ParseTransactionError(codec: Codec, name: string, f: SendFailure): (r: Error)
    ensures f.isExtended ==> r == f.error
  {
    if f.isExtended then f.error else ParseChaincodeError(codec, name, f)
  }

  /** A trimmed text that starts and ends with something else than white
      space is its own trim. */
  lemma TrimmedText(s: string)
    requires |s| > 0 && !IsSpace(s[0]) && !IsSpace(s[|s| - 1])
    ensures Trim(" " + s) == s
    ensures FailureText(FAILURE_PREFIX + " " + s) == s
  {
    assert (" " + s)[1..] == s;
    assert TrimStart(" " + s) == TrimStart(s) == s;
    var message := FAILURE_PREFIX + " " + s;
    assert message[..|FAILURE_PREFIX|] == FAILURE_PREFIX;
    assert message[|FAILURE_PREFIX|..] == " " + s;
  }

  /** The error a chaincode reports in its response envelope comes back out
      of Fabric's failure message, without its stack. */
  lemma ParseErrorRoundTrip(codec: Codec, id: Option<string>, e: Error)
    requires RoundTrips(codec)
    requires var s := codec.stringify(ResponseJson(ResponsePayload(id, Failure(e))));
      |s| > 0 && !IsSpace(s[0]) && !IsSpace(s[|s| - 1])
    ensures ParseError(codec, FAILURE_PREFIX + " " + codec.stringify(ResponseJson(ResponsePayload(id, Failure(e)))))
      == Some(e.(stack := None))
  {
    var v := ResponseJson(ResponsePayload(id, Failure(e)));
    var s := codec.stringify(v);
    TrimmedText(s);
    assert codec.parse(s) == Ok(v);
    ResponseMembers(ResponsePayload(id, Failure(e)));
    ErrorJsonRoundTrip(e);
  }

  // ---------------------------------------------------------------------------
  //  Commands and request envelopes
  // ---------------------------------------------------------------------------

  /** A command as the client holds it. `isQuery` and `isReadonly` are None
      when the command has no such own property. */
  datatype ClientCommand = ClientCommand(
    id: string, name: string, request: Option<Json>,
    isQuery: Option<Json>, isReadonly: Option<Json>, isAsync: bool)

  /** `isCommandReadonly(command)`: `isQuery` decides when present, then
      `isReadonly`; only the value `true` counts. */
  predicate IsCommandReadonly(c: ClientCommand)
  {
    if c.isQuery.Some? then c.isQuery.value == JBool(true)
    else c.isReadonly.Some? && c.isReadonly.value == JBool(true)
  }

  /** The envelope `createRequestOptions` fills in, as written: `request`
      only when not nil, `isReadonly` only when readonly, `isNeedReply` only
      when true. */
  function RequestFields(command: ClientCommand, options: Json, isNeedReply: bool): RawPayload
  {
    RawPayload(Some(JStr(command.id)), Some(JStr(command.name)),
               if IsNil(command.request) then None else command.request,
               Some(options),
               if isNeedReply then Some(JBool(true)) else None,
               if IsCommandReadonly(command) then Some(JBool(true)) else None)
  }

  /** `createRequestOptions(command, options, isNeedReply)` as written: the
      validator requires `isNeedReply` to be a boolean, so an envelope for a
      command that needs no reply never validates. */
  function CreateRequestOptionsAsWritten(command: ClientCommand, options: Json, isNeedReply: bool, optionsValid: Json -> bool)
    : (r: Result<RequestPayload>)
    ensures !isNeedReply ==> r.Err?
    ensures isNeedReply ==> (r.Ok? <==> options.JObj? && optionsValid(options))
  {
    Validate(RequestFields(command, options, isNeedReply), optionsValid)
  }

  /** `createRequestOptions(command, options, isNeedReply)` with `isNeedReply`
      always set: the envelope validates exactly when the options do, and
      carries the command's id, name and request, the reply flag, and the
      readonly flag exactly when the command is readonly. */
  function CreateRequestOptions(command: ClientCommand, options: Json, isNeedReply: bool, optionsValid: Json -> bool)
    : (r: Result<RequestPayload>)
    ensures r.Ok? <==> options.JObj? && optionsValid(options)
    ensures r.Ok? ==>
      r.value.id == command.id && r.value.name == command.name && r.value.options == options
      && r.value.isNeedReply == isNeedReply
      && (IsNil(command.request) ==> r.value.request.None?)
      && (!IsNil(command.request) ==> r.value.request == command.request)
      && (Truthy(r.value.isReadonly) <==> IsCommandReadonly(command))
  {
    Validate(RequestFields(command, options, isNeedReply).(isNeedReply := Some(JBool(isNeedReply))), optionsValid)
  }

  /** What the client submits is what the chaincode reads: the one argument
      of the transport function parses back into the envelope. */
  lemma RequestArrives(codec: Codec, command: ClientCommand, options: Json, isNeedReply: bool, optionsValid: Json -> bool)
    requires RoundTrips(codec) && CreateRequestOptions(command, options, isNeedReply, optionsValid).Ok?
    ensures var p := CreateRequestOptions(command, options, isNeedReply, optionsValid).value;
      Payload.Parse(TRANSPORT_FABRIC_METHOD, [codec.stringify(PayloadJson(p))], codec, optionsValid) == Ok(p)
  {
    ParseRoundTrip(CreateRequestOptions(command, options, isNeedReply, optionsValid).value, codec, optionsValid);
  }

  /** A command sent without waiting for a reply: the envelope as written is
      refused, the corrected one is accepted. */
  lemma NoReplySendRefused()
    ensures var command := ClientCommand("1", "ping", None, None, None, false);
      CreateRequestOptionsAsWritten(command, JObj([]), false, _ => true).Err?
      && CreateRequestOptions(command, JObj([]), false, _ => true).Ok?
  {
  }

  /** `getCommandTimeoutDelay(command, options)`: the default timeout without
      options or without a timeout in them; otherwise the base transport's
      delay (given). */
  function CommandTimeoutDelay(options: Option<Json>, defaultTimeout: int, baseDelay: int): (r: int)
    ensures IsNil(options) || IsNil(Member(options.value, "timeout")) ==> r == defaultTimeout
    ensures !IsNil(options) && !IsNil(Member(options.value, "timeout")) ==> r == baseDelay
  {
    if IsNil(options) || IsNil(Member(options.value, "timeout")) then defaultTimeout else baseDelay
  }

  // ---------------------------------------------------------------------------
  //  Replies
  // ---------------------------------------------------------------------------

  /** A response envelope read back from its plain object: an `id` that is a
      string, and a `response` that is an error when it has an error's shape. */
  function ResponseFromJson(value: Json): ResponsePayload
  {
    var id := Member(value, "id");
    var response := Member(value, "response");
    ResponsePayload(
      if id.Some? && id.value.JStr? then Some(id.value.s) else None,
      if response.None? then Data(None)
      else if IsErrorJson(response.value) then Failure(ErrorFromJson(response.value))
      else Data(response))
  }

  /** `TransportFabricResponsePayload.parse(data)`, with the fallback of
      `responseMessageReceived`: data that cannot be decoded becomes an error
      response for the expected id. */
  function DecodeResponse(codec: Codec, id: string, data: string): ResponsePayload
  {
    match codec.parse(data)
    case Err(e) => ResponsePayload(Some(id), Failure(e))
    case Ok(value) => ResponseFromJson(value)
  }

  /** A reply decodes into the envelope the chaincode encoded, unless it is
      data shaped like an error. */
  lemma ResponseRoundTrip(codec: Codec, id: string, p: ResponsePayload)
    requires RoundTrips(codec)
    requires p.response.Data? && p.response.value.Some? ==> !IsErrorJson(p.response.value.value)
    ensures DecodeResponse(codec, id, codec.stringify(ResponseJson(p))) == p
  {
    var v := ResponseJson(p);
    assert codec.parse(codec.stringify(v)) == Ok(v);
    ResponseMembers(p);
    if p.response.Failure? {
      ErrorJsonRoundTrip(p.response.error);
    }
  }

  /** The stack of an error reply is dropped. */
  function ClearStack(r: CommandResult): (c: CommandResult)
    ensures c.Failure? <==> r.Failure?
    ensures c.Failure? ==> c.error.stack.None? && c.error.(stack := r.error.stack) == r.error
    ensures c.Data? ==> c == r
  {
    if r.Failure? then Failure(r.error.(stack := None)) else r
  }

  /** A submitted transaction: evaluated or submitted, and its arguments to
      the transport function. */
  datatype Submission = Submission(isEvaluate: bool, args: seq<string>)

  /** The client's record: the commands waiting for a reply, the results the
      commands received in order, and the transactions sent in order. */
  datatype Table = Table(
    promises: map<string, ClientCommand>, received: seq<(string, CommandResult)>, submitted: seq<Submission>)

  /** `command.response(result)` followed by `commandProcessed(command)`: the
      command stops waiting and has its result. */
  function Processed(t: Table, id: string, result: CommandResult): (r: Table)
    ensures id !in r.promises && r.submitted == t.submitted
  {
    t.(promises := t.promises - {id}, received := t.received + [(id, result)])
  }

  /** `responseMessageReceived(id, data)`: an unknown id is ignored; a
      waiting command gets the decoded reply, its error without a stack. */
  function Receive(codec: Codec, t: Table, id: string, data: string): (r: Table)
    ensures id !in t.promises ==> r == t
    ensures id in t.promises ==>
      r.promises == t.promises - {id} && r.submitted == t.submitted
      && r.received == t.received + [(id, ClearStack(DecodeResponse(codec, id, data).response))]
  {
    if id !in t.promises then t else Processed(t, id, ClearStack(DecodeResponse(codec, id, data).response))
  }

  /** The id a batch entry is delivered under: its own `id` when a string. */
  function EntryId(value: Json): Option<string>
  {
    match Member(value, "id")
    case Some(JStr(s)) => Some(s)
    case _ => None
  }

  /** Each entry of a flush's recorded responses delivered in turn. */
  function Delivered(codec: Codec, t: Table, entries: seq<(string, Json)>): Table
    decreases |entries|
  {
    if |entries| == 0 then t
    else
      var front := Delivered(codec, t, entries[..|entries| - 1]);
      var last := entries[|entries| - 1].1;
      if EntryId(last).None? then front else Receive(codec, front, EntryId(last).value, codec.stringify(last))
  }

  /** The ids of a flush's recorded responses. */
  function EntryIds(entries: seq<(string, Json)>): set<string>
  {
    set k | 0 <= k < |entries| && EntryId(entries[k].1).Some? :: EntryId(entries[k].1).value
  }

  /** The ids of one more entry: those of the front and the last entry's own. */
  lemma EntryIdsSnoc(entries: seq<(string, Json)>)
    requires |entries| > 0
    ensures var n := |entries| - 1;
      EntryIds(entries) == EntryIds(entries[..n]) + (if EntryId(entries[n].1).Some? then {EntryId(entries[n].1).value} else {})
  {
    var n := |entries| - 1;
    forall x | x in EntryIds(entries)
      ensures x in EntryIds(entries[..n]) || (EntryId(entries[n].1).Some? && x == EntryId(entries[n].1).value)
    {
      var k :| 0 <= k < |entries| && EntryId(entries[k].1).Some? && x == EntryId(entries[k].1).value;
      if k < n {
        assert entries[..n][k] == entries[k];
      }
    }
    forall x | x in EntryIds(entries[..n])
      ensures x in EntryIds(entries)
    {
      var k :| 0 <= k < n && EntryId(entries[..n][k].1).Some? && x == EntryId(entries[..n][k].1).value;
      assert entries[..n][k] == entries[k];
    }
  }

  /** After a flush is delivered, exactly the commands it answered stop
      waiting; only waiting commands get a result; nothing is sent. */
  lemma {:induction false} DeliveredPromises(codec: Codec, t: Table, entries: seq<(string, Json)>)
    ensures Delivered(codec, t, entries).promises == t.promises - EntryIds(entries)
    ensures Delivered(codec, t, entries).submitted == t.submitted
    ensures |Delivered(codec, t, entries).received| >= |t.received|
    ensures Delivered(codec, t, entries).received[..|t.received|] == t.received
    ensures forall j :: |t.received| <= j < |Delivered(codec, t, entries).received| ==>
      Delivered(codec, t, entries).received[j].0 in t.promises
    decreases |entries|
  {
    if |entries| > 0 {
      var n := |entries| - 1;
      DeliveredPromises(codec, t, entries[..n]);
      EntryIdsSnoc(entries);
      var front := Delivered(codec, t, entries[..n]);
      var last := entries[n].1;
      if EntryId(last).Some? {
        var after := Receive(codec, front, EntryId(last).value, codec.stringify(last));
        assert after.received[..|front.received|] == front.received;
      }
    }
  }

  /** What a transaction came back with. */
  datatype TxOutcome = Returned(data: string) | Rejected(failure: SendFailure)

  /** `parseTransactionError(command, error)`: an async command receives the
      error; any other command is left alone. */
  function Failed(codec: Codec, t: Table, command: ClientCommand, f: SendFailure): Table
  {
    if command.isAsync then Processed(t, command.id, Failure(ParseTransactionError(codec, command.name, f))) else t
  }

  /** `requestSend(command, options, isNeedReply)` on a connected client. The
      envelope is submitted, or evaluated when readonly; a failure reaches the
      command through `parseTransactionError`. The base client reads an
      async command's reply inline when one is needed; the batching client
      sends non-readonly commands to be queued and reads no reply inline. */
  function SendEffect(codec: Codec, optionsValid: Json -> bool, batching: bool, t: Table,
                      command: ClientCommand, options: Json, isNeedReply: bool, outcome: TxOutcome): Table
  {
    match CreateRequestOptions(command, options, isNeedReply, optionsValid)
    case Err(e) => Failed(codec, t, command, SendFailure(e, true, [], []))
    case Ok(p) =>
      var sent := t.(submitted := t.submitted + [Submission(Truthy(p.isReadonly), [codec.stringify(PayloadJson(p))])]);
      AfterSubmit(codec, batching, sent, command, isNeedReply, outcome)
  }

  /** What the transaction's outcome does to the table once the envelope is
      sent: a reply read inline, a failure handed to the command, or nothing. */
  function AfterSubmit(codec: Codec, batching: bool, sent: Table, command: ClientCommand, isNeedReply: bool,
                       outcome: TxOutcome): Table
  {
    match outcome
    case Returned(data) =>
      if !(batching && !IsCommandReadonly(command)) && command.isAsync && isNeedReply then Receive(codec, sent, command.id, data)
      else sent
    case Rejected(f) => Failed(codec, sent, command, f)
  }

  /** A sent envelope is evaluated exactly when the command is readonly, and
      a command whose options validate always reaches the ledger. */
  lemma SendSubmits(codec: Codec, optionsValid: Json -> bool, batching: bool, t: Table,
                    command: ClientCommand, options: Json, isNeedReply: bool, outcome: TxOutcome)
    requires options.JObj? && optionsValid(options)
    ensures var after := SendEffect(codec, optionsValid, batching, t, command, options, isNeedReply, outcome);
      var p := CreateRequestOptions(command, options, isNeedReply, optionsValid).value;
      |after.submitted| == |t.submitted| + 1 && after.submitted[..|t.submitted|] == t.submitted
      && after.submitted[|t.submitted|] == Submission(IsCommandReadonly(command), [codec.stringify(PayloadJson(p))])
  {
  }

  /** A listened command whose transaction returns the chaincode's reply gets
      that reply and stops waiting, on the base client and for a readonly
      command on the batching client. */
  lemma InlineReply(codec: Codec, optionsValid: Json -> bool, batching: bool, t: Table,
                    command: ClientCommand, options: Json, p: ResponsePayload)
    requires RoundTrips(codec) && options.JObj? && optionsValid(options)
    requires command.isAsync && command.id in t.promises && (batching ==> IsCommandReadonly(command))
    requires p.response.Data? && p.response.value.Some? ==> !IsErrorJson(p.response.value.value)
    ensures var after := SendEffect(codec, optionsValid, batching, t, command, options, true, Returned(codec.stringify(ResponseJson(p))));
      command.id !in after.promises
      && after.received == t.received + [(command.id, ClearStack(p.response))]
  {
    ResponseRoundTrip(codec, command.id, p);
  }

  /** `isExitApplicationOnDisconnect` and the reconnect settings; None where
      the setting is not a number (or not a boolean). */
  datatype Settings = Settings(reconnectDelay: Option<int>, reconnectMaxAttempts: Option<int>, isExitApplicationOnDisconnect: Option<bool>)

  /** The defaults `connect` fills in: one second, no retry, exit. */
  function WithDefaults(s: Settings): (r: Settings)
    ensures r.reconnectDelay.Some? && r.reconnectMaxAttempts.Some? && r.isExitApplicationOnDisconnect.Some?
    ensures s.reconnectMaxAttempts.None? ==> r.reconnectMaxAttempts == Some(0)
    ensures s.reconnectDelay.None? ==> r.reconnectDelay == Some(1000)
    ensures s.isExitApplicationOnDisconnect.None? ==> r.isExitApplicationOnDisconnect == Some(true)
    ensures s.reconnectDelay.Some? && s.reconnectMaxAttempts.Some? && s.isExitApplicationOnDisconnect.Some? ==> r == s
  {
    Settings(if s.reconnectDelay.Some? then s.reconnectDelay else Some(1000),
             if s.reconnectMaxAttempts.Some? then s.reconnectMaxAttempts else Some(0),
             if s.isExitApplicationOnDisconnect.Some? then s.isExitApplicationOnDisconnect else Some(true))
  }

  /** The reconnect loop from `attempts` tries already made: the number of
      tries when it stops, and whether it connected. Attempt `n` succeeds
      when `outcomes(n)` is Ok; the loop gives up once the count exceeds
      `max`. */
  function ReconnectOutcome(outcomes: nat -> Result<()>, attempts: nat, max: int): (r: (nat, bool))
    ensures r.0 > attempts
    ensures forall k :: attempts < k < r.0 ==> outcomes(k).Err?
    ensures r.1 <==> outcomes(r.0).Ok?
    ensures !r.1 ==> r.0 > max
    ensures r.0 <= attempts + 1 || r.0 <= max + 1
    decreases if attempts <= max then max - attempts + 1 else 0
  {
    var n := attempts + 1;
    if outcomes(n).Ok? then (n, true)
    else if n > max then (n, false)
    else ReconnectOutcome(outcomes, n, max)
  }

  /** With `max` retries allowed, a failing connection is tried exactly
      `max + 1` times (at least once); with the default of 0 the first
      failure is final. */
  lemma {:induction false} ReconnectGivesUp(outcomes: nat -> Result<()>, max: int)
    requires forall k :: outcomes(k).Err?
    ensures ReconnectOutcome(outcomes, 0, max) == (if max >= 0 then max + 1 else 1, false)
    ensures max == 0 ==> ReconnectOutcome(outcomes, 0, max) == (1, false)
  {
    var r := ReconnectOutcome(outcomes, 0, max);
    assert !r.1;
  }

  /** The connection to Fabric, the table of waiting commands and the batch
      client's first-block flag. */
  class Sender {
    /** Whether this is the batching client (`TransportFabricSenderBatch`). */
    const batching: bool
    const codec: Codec
    const optionsValid: Json -> bool
    /** The connection settings (`settings`); None when nil. */
    var settings: Option<Settings>
    var isConnected: bool
    /** `connectionPromise` is not null. */
    var hasConnectionPromise: bool
    var connectionAttempts: nat
    /** The block and contract listeners are registered. */
    var listening: bool
    /** `process.exit` was called. */
    var exited: bool
    /** `isDestroyed`. */
    var destroyed: bool
    /** The `promises` table: commands waiting for a reply, by id. */
    var promises: map<string, ClientCommand>
    /** The results commands received, in order. */
    var received: seq<(string, CommandResult)>
    /** The transactions sent, in order. */
    var submitted: seq<Submission>
    var isFirstBlockEvent: bool

    /** A connection promise is kept only while connected, and listeners are
        registered exactly while connected. */
    predicate Valid()
      reads this
    {
      (hasConnectionPromise ==> isConnected) && (isConnected <==> listening)
    }

    function State(): Table
      reads this
    {
      Table(promises, received, submitted)
    }

    constructor (settings: Option<Settings>, batching: bool, codec: Codec, optionsValid: Json -> bool)
      ensures Valid()
      ensures this.settings == settings && this.batching == batching && this.codec == codec && this.optionsValid == optionsValid
      ensures !isConnected && !hasConnectionPromise && connectionAttempts == 0 && !exited && !destroyed
      ensures State() == Table(map[], [], []) && isFirstBlockEvent
    {
      this.settings := settings;
      this.batching := batching;
      this.codec := codec;
      this.optionsValid := optionsValid;
      isConnected := false;
      hasConnectionPromise := false;
      connectionAttempts := 0;
      listening := false;
      exited := false;
      destroyed := false;
      promises := map[];
      received := [];
      submitted := [];
      isFirstBlockEvent := true;
    }

    /** `connect()`: nil settings throw; the defaults are filled in; a
        connection already made (its promise kept) is returned as it is;
        otherwise the attempt count restarts and the reconnect loop runs. */
    method Connect(outcomes: nat -> Result<()>) returns (r: Result<()>)
      requires Valid()
      modifies this`settings, this`hasConnectionPromise, this`connectionAttempts, this`isConnected, this`listening, this`exited
      ensures Valid()
      ensures old(settings).None? ==> r.Err? && unchanged(this)
      ensures old(settings).Some? ==> settings == Some(WithDefaults(old(settings).value))
      ensures old(settings).Some? && old(hasConnectionPromise) ==>
        r.Ok? && isConnected && connectionAttempts == old(connectionAttempts) && exited == old(exited)
      ensures old(settings).Some? && !old(hasConnectionPromise) ==>
        var outcome := ReconnectOutcome(outcomes, 0, WithDefaults(old(settings).value).reconnectMaxAttempts.value);
        connectionAttempts == outcome.0 && (isConnected <==> outcome.1) && (r.Ok? <==> outcome.1)
        && (outcome.1 ==> hasConnectionPromise && exited == old(exited))
        && (!outcome.1 ==>
              !hasConnectionPromise
              && exited == (old(exited) || WithDefaults(old(settings).value).isExitApplicationOnDisconnect == Some(true)))
    {
      if settings.None? {
        return Err(Fail("Unable to connect: settings is nil"));
      }
      settings := Some(WithDefaults(settings.value));
      if hasConnectionPromise {
        return Ok(());
      }
      hasConnectionPromise := true;
      connectionAttempts := 0;
      isConnected := false;
      listening := false;
      r := Reconnect(outcomes);
    }

    /** `reconnect()`, run to its end: each try counts; a success completes
        the connection; a failure once the count exceeds the allowed retries
        disconnects; any other failure tries again. */
    method Reconnect(outcomes: nat -> Result<()>) returns (r: Result<()>)
      requires settings.Some? && settings.value.reconnectMaxAttempts.Some? && settings.value.isExitApplicationOnDisconnect.Some?
      requires hasConnectionPromise && !isConnected && !listening
      modifies this`connectionAttempts, this`isConnected, this`listening, this`hasConnectionPromise, this`exited
      ensures Valid()
      ensures (connectionAttempts, isConnected)
        == ReconnectOutcome(outcomes, old(connectionAttempts), settings.value.reconnectMaxAttempts.value)
      ensures r.Ok? <==> isConnected
      ensures isConnected ==> hasConnectionPromise && exited == old(exited)
      ensures !isConnected ==>
        !hasConnectionPromise && exited == (old(exited) || settings.value.isExitApplicationOnDisconnect == Some(true))
    {
      var max := settings.value.reconnectMaxAttempts.value;
      ghost var goal := ReconnectOutcome(outcomes, connectionAttempts, max);
      while true
        invariant ReconnectOutcome(outcomes, connectionAttempts, max) == goal
        invariant hasConnectionPromise && !isConnected && !listening && exited == old(exited)
        decreases if connectionAttempts <= max then max - connectionAttempts + 1 else 0
      {
        connectionAttempts := connectionAttempts + 1;
        var result := outcomes(connectionAttempts);
        if result.Ok? {
          isConnected := true;
          listening := true;
          return Ok(());
        }
        if connectionAttempts > max {
          var _ := Disconnect();
          return Err(result.error);
        }
      }
    }

    /** `disconnect(error)`: the connection promise is dropped, the client is
        no longer connected, the listeners are removed, and the process exits
        when so configured; nil settings make the last step throw. */
    method Disconnect() returns (r: Result<()>)
      modifies this`hasConnectionPromise, this`isConnected, this`listening, this`exited
      ensures Valid() && !isConnected && !hasConnectionPromise
      ensures r.Err? <==> settings.None?
      ensures r.Err? ==> r.error == Stub.NullReference("isExitApplicationOnDisconnect")
      ensures exited == (old(exited) || (settings.Some? && settings.value.isExitApplicationOnDisconnect == Some(true)))
    {
      hasConnectionPromise := false;
      isConnected := false;
      listening := false;
      if settings.None? {
        return Err(Stub.NullReference("isExitApplicationOnDisconnect"));
      }
      if settings.value.isExitApplicationOnDisconnect == Some(true) {
        exited := true;
      }
      r := Ok(());
    }

    /** `destroy()`: once only; marks the client destroyed and disconnects,
        so nil settings make it throw. The base table it then drops is not
        part of this model. */
    method Destroy() returns (r: Result<()>)
      requires Valid()
      modifies this`destroyed, this`hasConnectionPromise, this`isConnected, this`listening, this`exited
      ensures destroyed && Valid() && State() == old(State())
      ensures old(destroyed) ==> r.Ok? && unchanged(this)
      ensures !old(destroyed) ==>
        !isConnected && !hasConnectionPromise
        && (r.Err? <==> settings.None?)
        && (r.Err? ==> r.error == Stub.NullReference("isExitApplicationOnDisconnect"))
        && exited == (old(exited) || (settings.Some? && settings.value.isExitApplicationOnDisconnect == Some(true)))
    {
      if destroyed {
        return Ok(());
      }
      destroyed := true;
      r := Disconnect();
    }

    /** `responseMessageReceived(id, data)`. */
    method ResponseMessageReceived(id: string, data: string)
      modifies this`promises, this`received
      ensures State() == Receive(codec, old(State()), id, data)
    {
      if id !in promises {
        return;
      }
      var payload := DecodeResponse(codec, id, data);
      received := received + [(id, ClearStack(payload.response))];
      promises := promises - {id};
    }

    /** `parseTransactionError(command, error)`. */
    method ParseTransactionFailure(command: ClientCommand, f: SendFailure)
      modifies this`promises, this`received
      ensures State() == Failed(codec, old(State()), command, f)
    {
      if !command.isAsync {
        return;
      }
      var error := ParseTransactionError(codec, command.name, f);
      received := received + [(command.id, Failure(error))];
      promises := promises - {command.id};
    }

    /** `requestSend(command, options, isNeedReply)`: a client that is not
        connected throws; otherwise the envelope is sent and its outcome
        handled (`SendEffect`). */
    method RequestSend(command: ClientCommand, options: Json, isNeedReply: bool, outcome: TxOutcome) returns (r: Result<()>)
      modifies this`promises, this`received, this`submitted
      ensures !isConnected ==>
        r == Err(Fail("Unable to send \"" + command.name + "\" command request: transport is not connected"))
        && State() == old(State())
      ensures isConnected ==>
        r.Ok? && State() == SendEffect(codec, optionsValid, batching, old(State()), command, options, isNeedReply, outcome)
    {
      if !isConnected {
        return Err(Fail("Unable to send \"" + command.name + "\" command request: transport is not connected"));
      }
      SendConnected(command, options, isNeedReply, outcome);
      r := Ok(());
    }

    /** `requestSend` past the connection check: build the envelope, submit
        it and handle the outcome. */
    method SendConnected(command: ClientCommand, options: Json, isNeedReply: bool, outcome: TxOutcome)
      modifies this`promises, this`received, this`submitted
      ensures State() == SendEffect(codec, optionsValid, batching, old(State()), command, options, isNeedReply, outcome)
    {
      var request := CreateRequestOptions(command, options, isNeedReply, optionsValid);
      if request.Err? {
        ParseTransactionFailure(command, SendFailure(request.error, true, [], []));
        return;
      }
      var p := request.value;
      submitted := submitted + [Submission(Truthy(p.isReadonly), [codec.stringify(PayloadJson(p))])];
      HandleOutcome(command, isNeedReply, outcome);
    }

    /** The end of `requestSend`: the transaction's result is read inline when
        a reply is needed, or its failure handed to the command. */
    method HandleOutcome(command: ClientCommand, isNeedReply: bool, outcome: TxOutcome)
      modifies this`promises, this`received
      ensures State() == AfterSubmit(codec, batching, old(State()), command, isNeedReply, outcome)
    {
      match outcome {
        case Returned(data) =>
          if !(batching && !IsCommandReadonly(command)) && command.isAsync && isNeedReply {
            ResponseMessageReceived(command.id, data);
          }
        case Rejected(f) =>
          ParseTransactionFailure(command, f);
      }
    }

    /** `send(command, options)`: no reply is awaited. */
    method Send(command: ClientCommand, options: Json, outcome: TxOutcome) returns (r: Result<()>)
      modifies this`promises, this`received, this`submitted
      ensures isConnected ==> r.Ok? && State() == SendEffect(codec, optionsValid, batching, old(State()), command, options, false, outcome)
      ensures !isConnected ==> r.Err? && State() == old(State())
    {
      r := RequestSend(command, options, false, outcome);
    }

    /** `sendListen(command, options)`: a command already waiting is not sent
        again; otherwise it is entered in the table and sent with a reply
        requested. */
    method SendListen(command: ClientCommand, options: Json, outcome: TxOutcome) returns (sent: bool, r: Result<()>)
      modifies this`promises, this`received, this`submitted
      ensures sent <==> command.id !in old(promises)
      ensures !sent ==> r.Ok? && State() == old(State())
      ensures sent && isConnected ==>
        r.Ok? && State() == SendEffect(codec, optionsValid, batching,
                                       old(State()).(promises := old(promises)[command.id := command]),
                                       command, options, true, outcome)
      ensures sent && !isConnected ==>
        r.Err? && State() == old(State()).(promises := old(promises)[command.id := command])
    {
      if command.id in promises {
        return false, Ok(());
      }
      promises := promises[command.id := command];
      sent := true;
      r := RequestSend(command, options, true, outcome);
    }

    /** The loop of the batch block callback: each recorded response is
        delivered under its own id. */
    method DeliverAll(entries: seq<(string, Json)>)
      modifies this`promises, this`received
      ensures State() == Delivered(codec, old(State()), entries)
    {
      var i := 0;
      while i < |entries|
        invariant 0 <= i <= |entries|
        invariant submitted == old(submitted)
        invariant State() == Delivered(codec, old(State()), entries[..i])
      {
        assert entries[..i + 1][..i] == entries[..i];
        var value := entries[i].1;
        var id := EntryId(value);
        if id.Some? {
          ResponseMessageReceived(id.value, codec.stringify(value));
        }
        i := i + 1;
      }
      assert entries[..i] == entries;
    }

    /** `blockEventCallback(error, block)`. The base client only logs. The
        batching client ignores an error and the first block it sees; for
        every later block that holds a flush, each recorded response reaches
        the command with its id. */
    method BlockEventCallback(error: Option<Error>, block: Block, api: FabricApi)
      modifies this`isFirstBlockEvent, this`promises, this`received
      ensures submitted == old(submitted)
      ensures !batching || error.Some? ==> unchanged(this)
      ensures batching && error.None? && old(isFirstBlockEvent) ==> !isFirstBlockEvent && State() == old(State())
      ensures batching && error.None? && !old(isFirstBlockEvent) ==>
        !isFirstBlockEvent &&
        var parsed := BatchBlockOf(codec, api, block);
        if parsed.Ok? && parsed.value.isBatch then
          State() == Delivered(codec, old(State()), Entries(parsed.value.transactions[0].response.value))
        else State() == old(State())
    {
      if !batching || error.Some? {
        return;
      }
      if isFirstBlockEvent {
        isFirstBlockEvent := false;
        return;
      }
      var parsed := BlockParserBatch.Parse(codec, api, block);
      if parsed.Err? || !parsed.value.isBatch {
        return;
      }
      BatchBlockShape(codec, api, block);
      var index := FindBatch(parsed.value.transactions);
      var batch := parsed.value.transactions[index.value];
      assert index.value == 0;
      DeliverAll(Entries(batch.response.value));
    }
  }
}
