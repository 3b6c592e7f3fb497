/** `TransportFabricChaincodeReceiver` and its batching variant
    `TransportFabricChaincodeReceiverBatch`: the chaincode side of the
    transport. An invocation is parsed into a request, checked, recorded in the
    request table and handed to the listener registered for its name; the
    listener completes it, and the completion is what the invocation returns.
    The batching variant queues every non-readonly command in the ledger and
    runs the queue when the batch command arrives. */
module Receiver {
  import opened Common
  import opened Strings
  import opened Constants
  import opened Ledger
  import opened Payload
  import opened Stub
  import opened Database
  import opened Wrapper
  import opened BatchStub
  import opened BatchKeys

  // ---------------------------------------------------------------------------
  //  Signature checks
  // ---------------------------------------------------------------------------

  /** A crypto manager: the algorithm it serves and its verdict on a signed
      command (taken as given). */
  datatype CryptoManager = CryptoManager(algorithm: string, verify: (Command, Json) -> bool)

  /** `isNonSignedCommand(command)`: the list is not empty and names the
      command. */
  predicate IsNonSignedCommand(nonSignedCommands: seq<string>, name: string)
  {
    |nonSignedCommands| > 0 && name in nonSignedCommands
  }

  /** `_.find(cryptoManagers, item => item.algorithm === algorithm)`: the first
      manager whose algorithm is the given string. */
  function FindManager(managers: seq<CryptoManager>, algorithm: Json): (r: Option<CryptoManager>)
    ensures r.Some? ==> r.value in managers && algorithm == JStr(r.value.algorithm)
    ensures r.None? <==> forall i :: 0 <= i < |managers| ==> algorithm != JStr(managers[i].algorithm)
    decreases |managers|
  {
    if |managers| == 0 then None
    else if algorithm == JStr(managers[0].algorithm) then Some(managers[0])
    else FindManager(managers[1..], algorithm)
  }

  /** The first manager found is the first in list order. */
  lemma {:induction false} FindManagerFirst(managers: seq<CryptoManager>, algorithm: Json, i: nat)
    requires i < |managers| && algorithm == JStr(managers[i].algorithm)
    requires forall j :: 0 <= j < i ==> algorithm != JStr(managers[j].algorithm)
    ensures FindManager(managers, algorithm) == Some(managers[i])
    decreases i
  {
    if i > 0 {
      FindManagerFirst(managers[1..], algorithm, i - 1);
    }
  }

  /** How a value is written inside a template string. */
  function TemplateText(value: Json): string
  {
    match value
    case JStr(s) => s
    case JBool(b) => if b then "true" else "false"
    case JNum(n) => if n < 0 then "-" + NatToString(-n) else NatToString(n)
    case JNull => "null"
    case JArr(_) => ""
    case JObj(_) => "[object Object]"
  }

  /** `validateSignature(command, signature)`: nil signature, nonce,
      algorithm, public key, an unknown algorithm and a failed verification are
      reported in that order. */
  function ValidateSignature(managers: seq<CryptoManager>, command: Command, signature: Option<Json>): (r: Result<()>)
    ensures IsNil(signature) ==> r == Err(Fail("Command \"" + command.name + "\" has nil signature"))
    ensures !IsNil(signature) && IsNil(Member(signature.value, "nonce")) ==>
      r == Err(Fail("Command \"" + command.name + "\" signature has invalid nonce"))
    ensures r.Ok? <==>
      !IsNil(signature) && !IsNil(Member(signature.value, "nonce")) && !IsNil(Member(signature.value, "algorithm"))
      && !IsNil(Member(signature.value, "publicKey"))
      && FindManager(managers, Member(signature.value, "algorithm").value).Some?
      && FindManager(managers, Member(signature.value, "algorithm").value).value.verify(command, signature.value)
  {
    if IsNil(signature) then Err(Fail("Command \"" + command.name + "\" has nil signature"))
    else
      var s := signature.value;
      if IsNil(Member(s, "nonce")) then Err(Fail("Command \"" + command.name + "\" signature has invalid nonce"))
      else if IsNil(Member(s, "algorithm")) then Err(Fail("Command \"" + command.name + "\" signature has invalid algorithm"))
      else if IsNil(Member(s, "publicKey")) then Err(Fail("Command \"" + command.name + "\" signature has invalid publicKey"))
      else
        var algorithm := Member(s, "algorithm").value;
        match FindManager(managers, algorithm)
        case None =>
          Err(Fail("Command \"" + command.name + "\" signature algorithm (" + TemplateText(algorithm) + ") doesn't support"))
        case Some(manager) =>
          if manager.verify(command, s) then Ok(())
          else Err(Fail("Command \"" + command.name + "\" has invalid signature"))
  }

  // ---------------------------------------------------------------------------
  //  Requests, listeners and outcomes
  // ---------------------------------------------------------------------------

  /** A request table entry: how often the id was received again, whether a
      reply is wanted, when it expires, the promise it settles (a ticket into
      the settlement table) and the payload. The options the source copies
      onto the entry are the payload's. */
  datatype RequestStorage = RequestStorage(
    waitCount: nat, isNeedReply: bool, expiredDate: Option<int>, ticket: nat, payload: RequestPayload)

  /** The base transport's timing rules, taken as given: whether an entry has
      expired at a time, whether its wait limit is passed, and the command
      timeout for some options. */
  datatype Timing = Timing(
    isExpired: (RequestStorage, int) -> bool,
    isWaitExpired: RequestStorage -> bool,
    timeoutDelay: (Command, Json) -> int)

  /** How a request's promise was settled. */
  datatype Settlement = Resolved(response: ResponsePayload) | Rejected(error: Error)

  /** The stub a command works on: the invocation's own, or a batch stub. */
  datatype StubRef = Direct(stub: TransportFabricStub) | Batched(batch: StubBatch)

  /** A command together with its stub, as the listener receives it. */
  datatype Handle = Handle(command: Command, stub: StubRef)

  /** One step a listener takes through the command's stub. */
  datatype StubOp = WriteOp(key: string, value: string) | RemoveOp(key: string) | EmitOp(event: Event)

  /** What a listener does with a command: its steps, then `wait` calls, then
      `complete` with a result. A step or wait that fails ends the listener
      before it completes. */
  datatype Script = Script(ops: seq<StubOp>, waits: nat, result: CommandResult)

  /** What `invoke` ends with: a response, nothing (expired request), a
      promise that stays pending, or an exception. */
  datatype InvokeOutcome = Responded(response: ResponsePayload) | NoResponse | Pending | Thrown(error: Error)

  /** What running the batch queue ends with: the response object, a wait on
      a command that never completes, or an exception. */
  datatype Flush = Flushed(response: seq<(string, Json)>) | Stalled | FlushFailed(error: Error)

  /** Settling a promise: the first settlement stands. */
  function SettleIn(settled: map<nat, Settlement>, ticket: nat, s: Settlement): (r: map<nat, Settlement>)
    ensures r.Keys == settled.Keys + {ticket}
    ensures ticket in settled ==> r[ticket] == settled[ticket]
    ensures ticket !in settled ==> r[ticket] == s
    ensures forall t :: t in settled ==> r[t] == settled[t]
  {
    if ticket in settled then settled else settled[ticket := s]
  }

  /** The tickets of the entries with the given ids. */
  function TicketsOf(requests: map<string, RequestStorage>, ids: set<string>): set<nat>
  {
    set id | id in ids && id in requests :: requests[id].ticket
  }

  function ExpiredError(name: string): Error
  {
    Fail("Unable to completed \"" + name + "\" command: timeout is expired")
  }

  function NoListener(name: string): Error
  {
    Fail("No listener for \"" + name + "\" command")
  }

  function UnknownRequest(name: string): Error
  {
    Fail("Unable to wait \"" + name + "\" command: can't find request details")
  }

  /** `new TransportWaitExceedError(command)`. */
  function WaitExceeded(command: Command): Error
  {
    Error("Command \"" + command.name + "\" wait exceed", WAIT_EXCEED_CODE, None, None)
  }

  const CHAINCODE_DESTROYED: Error := Fail("Chaincode destroyed")

  /** The objects a stub operation may change. */
  function Footprint(s: StubRef): set<object>
  {
    match s
    case Direct(st) => {st, st.ledger}
    case Batched(b) => {b, b.wrapper}
  }

  ghost predicate StubValid(s: StubRef)
    reads Footprint(s)
  {
    match s
    case Direct(st) => st.Valid()
    case Batched(b) => b.wrapper.Valid()
  }

  predicate StubDestroyed(s: StubRef)
    reads Footprint(s)
  {
    match s
    case Direct(st) => st.destroyed
    case Batched(b) => b.destroyed
  }

  /** The writes a step issues through a stub of the invocation. */
  function OpWrites(op: StubOp): seq<StateOp>
  {
    match op
    case WriteOp(k, v) => [PutOp(k, v)]
    case RemoveOp(k) => [DeleteOp(k)]
    case EmitOp(_) => []
  }

  /** The response key of a queued command: its hash, or the text a missing
      hash becomes as a property name. */
  function HashKey(key: string): string
  {
    match BatchKeyToHash(key)
    case Some(h) => h
    case None => "undefined"
  }

  /** The response keys of the queued entries, in queue order. */
  function HashList(queue: seq<KeyValue>): (hs: seq<string>)
    ensures |hs| == |queue| && forall j :: 0 <= j < |queue| ==> hs[j] == HashKey(queue[j].key)
  {
    seq(|queue|, j requires 0 <= j < |queue| => HashKey(queue[j].key))
  }

  /** The response object `executeBatch` builds from the entries' response
      keys and results: every result assigned under its key, in queue order. */
  function Collect(keys: seq<string>, results: seq<Json>): seq<(string, Json)>
    requires |results| == |keys|
    decreases |keys|
  {
    if |keys| == 0 then []
    else Assign(Collect(keys[..|keys| - 1], results[..|results| - 1]), keys[|keys| - 1], results[|results| - 1])
  }

  lemma CollectSnoc(keys: seq<string>, results: seq<Json>, r: Json)
    requires |results| < |keys|
    ensures Collect(keys[..|results| + 1], results + [r])
         == Assign(Collect(keys[..|results|], results), keys[|results|], r)
  {
    var n := |results|;
    var ks, rs := keys[..n + 1], results + [r];
    assert ks[..|ks| - 1] == keys[..n] && ks[|ks| - 1] == keys[n];
    assert rs[..|rs| - 1] == results && rs[|rs| - 1] == r;
  }

  lemma CollectUnfold(keys: seq<string>, results: seq<Json>)
    requires |results| == |keys| > 0
    ensures var n := |keys| - 1;
      Collect(keys, results) == Assign(Collect(keys[..n], results[..n]), keys[n], results[n])
  {
  }

  lemma AssignHasKey(members: seq<(string, Json)>, key: string, value: Json, k: string)
    ensures k in Keys(Assign(members, key, value)) <==> k in Keys(members) || k == key
  {
  }

  lemma InPrefixOrLast(keys: seq<string>, k: string)
    requires |keys| > 0
    ensures k in keys <==> k in keys[..|keys| - 1] || k == keys[|keys| - 1]
  {
    assert keys == keys[..|keys| - 1] + [keys[|keys| - 1]];
  }

  /** The keys of the response are exactly the entries' response keys. */
  lemma {:induction false} CollectKeys(keys: seq<string>, results: seq<Json>, k: string)
    requires |results| == |keys|
    ensures k in Keys(Collect(keys, results)) <==> k in keys
    decreases |keys|
  {
    if |keys| > 0 {
      var n := |keys| - 1;
      var ks, rs := keys[..n], results[..n];
      CollectUnfold(keys, results);
      AssignHasKey(Collect(ks, rs), keys[n], results[n], k);
      CollectKeys(ks, rs, k);
      InPrefixOrLast(keys, k);
    }
  }

  /** Under a key the response holds the result of the last entry with that
      key: a later result replaces an earlier one. */
  lemma {:induction false} CollectLast(keys: seq<string>, results: seq<Json>, j: nat)
    requires |results| == |keys| && j < |keys|
    requires forall k :: j < k < |keys| ==> keys[k] != keys[j]
    ensures Lookup(Collect(keys, results), keys[j]) == Some(results[j])
    decreases |keys|
  {
    var n := |keys| - 1;
    var ks, rs := keys[..n], results[..n];
    CollectUnfold(keys, results);
    AssignLookup(Collect(ks, rs), keys[n], results[n], keys[j]);
    if j < n {
      assert forall k :: 0 <= k < |ks| ==> ks[k] == keys[k];
      CollectLast(ks, rs, j);
    }
  }

  /** A key no entry has is not a key of the response. */
  lemma {:induction false} CollectMissing(keys: seq<string>, results: seq<Json>, h: string)
    requires |results| == |keys| && h !in keys
    ensures Lookup(Collect(keys, results), h) == None
    decreases |keys|
  {
    if |keys| > 0 {
      var n := |keys| - 1;
      var ks, rs := keys[..n], results[..n];
      CollectUnfold(keys, results);
      AssignLookup(Collect(ks, rs), keys[n], results[n], h);
      InPrefixOrLast(keys, h);
      CollectMissing(ks, rs, h);
    }
  }

  /** The plain object a settled queued command contributes to the response:
      its response envelope, or its error. */
  function SettlementJson(s: Settlement): Json
  {
    match s
    case Resolved(p) => ResponseJson(p)
    case Rejected(e) => ErrorJson(e)
  }

  /** What awaiting a request's promise gives: its response, its error, or
      nothing yet. */
  function Answer(settled: map<nat, Settlement>, ticket: nat): InvokeOutcome
  {
    if ticket !in settled then Pending
    else match settled[ticket]
      case Resolved(p) => Responded(p)
      case Rejected(e) => Thrown(e)
  }

  /** A promise once settled stays settled the same way. */
  ghost predicate Keeps(before: map<nat, Settlement>, after: map<nat, Settlement>)
  {
    forall t :: t in before ==> t in after && after[t] == before[t]
  }

  lemma KeepsTrans(a: map<nat, Settlement>, b: map<nat, Settlement>, c: map<nat, Settlement>)
    requires Keeps(a, b) && Keeps(b, c)
    ensures Keeps(a, c)
  {
  }

  /** The writes a listener's steps issue through the invocation's stub. */
  function ScriptWrites(ops: seq<StubOp>): seq<StateOp>
    decreases |ops|
  {
    if |ops| == 0 then [] else ScriptWrites(ops[..|ops| - 1]) + OpWrites(ops[|ops| - 1])
  }

  lemma ScriptWritesSnoc(ops: seq<StubOp>, i: nat)
    requires i < |ops|
    ensures ScriptWrites(ops[..i + 1]) == ScriptWrites(ops[..i]) + OpWrites(ops[i])
  {
    assert ops[..i + 1][..i] == ops[..i];
  }

  class TransportReceiver {
    /** Whether this is the batching receiver. */
    const batching: bool
    const nonSignedCommands: seq<string>
    const cryptoManagers: seq<CryptoManager>
    /** The listeners, by command name. */
    const listeners: map<string, Command -> Script>
    const codec: Codec
    /** The class validator's verdict on command options and on events. */
    const optionsValid: Json -> bool
    const eventValidate: Event -> Option<Error>
    /** The transformations `putState` applies. */
    const transforms: Transforms
    const timing: Timing
    /** The request table (`requests`), by command id. */
    var requests: map<string, RequestStorage>
    /** The settled promises, by ticket; the next ticket to hand out. */
    var settled: map<nat, Settlement>
    var nextTicket: nat

    constructor (batching: bool, nonSignedCommands: seq<string>, cryptoManagers: seq<CryptoManager>,
                 listeners: map<string, Command -> Script>, codec: Codec, optionsValid: Json -> bool,
                 eventValidate: Event -> Option<Error>, transforms: Transforms, timing: Timing)
      ensures this.batching == batching && this.nonSignedCommands == nonSignedCommands
      ensures this.cryptoManagers == cryptoManagers && this.listeners == listeners && this.codec == codec
      ensures this.optionsValid == optionsValid && this.eventValidate == eventValidate
      ensures this.transforms == transforms && this.timing == timing
      ensures requests == map[] && settled == map[] && nextTicket == 0
    {
      this.batching := batching;
      this.nonSignedCommands := nonSignedCommands;
      this.cryptoManagers := cryptoManagers;
      this.listeners := listeners;
      this.codec := codec;
      this.optionsValid := optionsValid;
      this.eventValidate := eventValidate;
      this.transforms := transforms;
      this.timing := timing;
      requests := map[];
      settled := map[];
      nextTicket := 0;
    }

    /** The entry `checkRequestStorage` creates for a new id. */
    function NewRequest(command: Command, payload: RequestPayload, now: int, ticket: nat): RequestStorage
    {
      RequestStorage(0, payload.isNeedReply,
        if payload.isNeedReply then Some(now + timing.timeoutDelay(command, payload.options)) else None,
        ticket, payload)
    }

    /** What `complete` settles a request with: the expiry error once the
        request has expired, otherwise the command's result. */
    function Completion(item: RequestStorage, command: Command, result: CommandResult, now: int): Settlement
    {
      if timing.isExpired(item, now) then Resolved(ResponsePayload(Some(command.id), Failure(ExpiredError(command.name))))
      else Resolved(ResponsePayload(Some(command.id), result))
    }

    /** The signature check `invoke` makes: none for an exempt command. */
    function SignatureCheck(p: RequestPayload): (r: Result<()>)
      ensures IsNonSignedCommand(nonSignedCommands, p.name) ==> r.Ok?
      ensures !IsNonSignedCommand(nonSignedCommands, p.name) ==>
        r == ValidateSignature(cryptoManagers, CreateCommand(p), Member(p.options, "signature"))
    {
      if IsNonSignedCommand(nonSignedCommands, p.name) then Ok(())
      else ValidateSignature(cryptoManagers, CreateCommand(p), Member(p.options, "signature"))
    }

    /** The entry `checkRequestStorage` answers in the current state. */
    function Received(command: Command, payload: RequestPayload, now: int): RequestStorage
      reads this
    {
      if command.id in requests then requests[command.id].(waitCount := requests[command.id].waitCount + 1)
      else NewRequest(command, payload, now, nextTicket)
    }

    /** `checkRequestStorage(command, payload)`: a known id counts one more
        receipt; a new id gets an entry with no receipts, expiring only when a
        reply is wanted. */
    method CheckRequestStorage(command: Command, payload: RequestPayload, now: int) returns (item: RequestStorage)
      modifies this`requests, this`nextTicket
      ensures requests == old(requests)[command.id := item]
      ensures command.id in old(requests) ==>
        item == old(requests)[command.id].(waitCount := old(requests)[command.id].waitCount + 1)
        && nextTicket == old(nextTicket)
      ensures command.id !in old(requests) ==>
        item == NewRequest(command, payload, now, old(nextTicket)) && nextTicket == old(nextTicket) + 1
      ensures item.expiredDate.Some? ==> command.id in old(requests) || payload.isNeedReply
      ensures item == old(Received(command, payload, now))
    {
      if command.id in requests {
        var known := requests[command.id];
        item := known.(waitCount := known.waitCount + 1);
      } else {
        item := NewRequest(command, payload, now, nextTicket);
        nextTicket := nextTicket + 1;
      }
      requests := requests[command.id := item];
    }

    /** Destroying a command destroys its stub. */
    method DestroyStub(s: StubRef)
      requires StubValid(s)
      modifies Footprint(s)
      ensures StubValid(s) && StubDestroyed(s)
      ensures s.Direct? ==>
        s.stub.ledger.events == old(s.stub.ledger.events) + DestroyEvents(s.stub.codec, old(s.stub.eventsToDispatch))
        && s.stub.ledger.writes == old(s.stub.ledger.writes)
      ensures s.Batched? ==> unchanged(s.batch.wrapper)
    {
      match s
      case Direct(st) => st.Destroy();
      case Batched(b) => b.Destroy();
    }

    /** `complete(command, result)`: the entry is removed first; an unknown id
        is a no-op; an expired entry resolves with the expiry error and leaves
        the command alone; otherwise the command's result is resolved and the
        command (with its stub) is destroyed. */
    method Complete(handle: Handle, result: CommandResult, now: int)
      requires StubValid(handle.stub)
      modifies this`settled, this`requests, Footprint(handle.stub)
      ensures StubValid(handle.stub)
      ensures requests == old(requests) - {handle.command.id}
      ensures handle.command.id !in old(requests) ==> settled == old(settled) && unchanged(Footprint(handle.stub))
      ensures handle.command.id in old(requests) ==>
        var item := old(requests)[handle.command.id];
        settled == SettleIn(old(settled), item.ticket, Completion(item, handle.command, result, now))
        && (timing.isExpired(item, now) ==> unchanged(Footprint(handle.stub)))
        && (!timing.isExpired(item, now) ==> StubDestroyed(handle.stub))
      ensures Keeps(old(settled), settled)
      ensures handle.stub.Direct? ==> handle.stub.stub.ledger.writes == old(handle.stub.stub.ledger.writes)
      ensures handle.stub.Direct? && handle.command.id in old(requests) && !timing.isExpired(old(requests)[handle.command.id], now) ==>
        handle.stub.stub.ledger.events
          == old(handle.stub.stub.ledger.events) + DestroyEvents(handle.stub.stub.codec, old(handle.stub.stub.eventsToDispatch))
    {
      var id := handle.command.id;
      if id !in requests {
        return;
      }
      var item := requests[id];
      requests := requests - {id};
      settled := SettleIn(settled, item.ticket, Completion(item, handle.command, result, now));
      if timing.isExpired(item, now) {
        return;
      }
      DestroyStub(handle.stub);
    }

    /** `wait(command)`: an unknown id throws; past the wait limit the command
        completes with a wait-exceeded error; otherwise nothing changes. */
    method Wait(handle: Handle, now: int) returns (r: Result<()>)
      requires StubValid(handle.stub)
      modifies this`settled, this`requests, Footprint(handle.stub)
      ensures StubValid(handle.stub)
      ensures handle.command.id !in old(requests) ==>
        r == Err(UnknownRequest(handle.command.name)) && settled == old(settled) && requests == old(requests)
      ensures handle.command.id in old(requests) ==> r.Ok?
      ensures handle.command.id in old(requests) && !timing.isWaitExpired(old(requests)[handle.command.id]) ==>
        settled == old(settled) && requests == old(requests) && unchanged(Footprint(handle.stub))
      ensures handle.command.id in old(requests) && timing.isWaitExpired(old(requests)[handle.command.id]) ==>
        var item := old(requests)[handle.command.id];
        requests == old(requests) - {handle.command.id}
        && settled == SettleIn(old(settled), item.ticket, Completion(item, handle.command, Failure(WaitExceeded(handle.command)), now))
      ensures Keeps(old(settled), settled)
      ensures handle.stub.Direct? ==> handle.stub.stub.ledger.writes == old(handle.stub.stub.ledger.writes)
    {
      var id := handle.command.id;
      if id !in requests {
        return Err(UnknownRequest(handle.command.name));
      }
      if timing.isWaitExpired(requests[id]) {
        Complete(handle, Failure(WaitExceeded(handle.command)), now);
      }
      r := Ok(());
    }

    /** `destroy()`: every pending promise is rejected and the table emptied. */
    method Destroy()
      modifies this`settled, this`requests
      ensures requests == map[]
      ensures settled.Keys == old(settled).Keys + TicketsOf(old(requests), old(requests).Keys)
      ensures forall t :: t in old(settled) ==> settled[t] == old(settled)[t]
      ensures forall t :: t in settled && t !in old(settled) ==> settled[t] == Rejected(CHAINCODE_DESTROYED)
    {
      var pending := requests.Keys;
      while pending != {}
        invariant pending <= requests.Keys && requests == old(requests)
        invariant settled.Keys == old(settled).Keys + TicketsOf(requests, requests.Keys - pending)
        invariant forall t :: t in old(settled) ==> settled[t] == old(settled)[t]
        invariant forall t :: t in settled && t !in old(settled) ==> settled[t] == Rejected(CHAINCODE_DESTROYED)
        decreases |pending|
      {
        var id :| id in pending;
        settled := SettleIn(settled, requests[id].ticket, Rejected(CHAINCODE_DESTROYED));
        assert TicketsOf(requests, requests.Keys - (pending - {id}))
            == TicketsOf(requests, requests.Keys - pending) + {requests[id].ticket};
        pending := pending - {id};
      }
      requests := map[];
    }

    /** One listener step through the command's stub. Through a batch stub an
        event can never be dispatched. */
    method ApplyOp(s: StubRef, op: StubOp) returns (ok: bool)
      requires StubValid(s)
      modifies Footprint(s)
      ensures StubValid(s)
      ensures s.Direct? && ok ==> s.stub.ledger.writes == old(s.stub.ledger.writes) + OpWrites(op)
      ensures s.Direct? && !ok ==> s.stub.ledger.writes == old(s.stub.ledger.writes)
      ensures s.Direct? ==> (ok <==> !s.stub.destroyed && (op.EmitOp? ==> s.stub.hasTransport && eventValidate(op.event).None?))
      ensures s.Batched? && op.EmitOp? ==> !ok
    {
      match s {
        case Direct(st) =>
          match op {
            case WriteOp(k, v) =>
              var r := st.PutStateRaw(k, Some(v));
              ok := r.Ok?;
            case RemoveOp(k) =>
              var r := st.RemoveState(k);
              ok := r.Ok?;
            case EmitOp(e) =>
              var r := st.Dispatch(e, true, eventValidate);
              ok := r.Ok?;
          }
        case Batched(b) =>
          match op {
            case WriteOp(k, v) =>
              var r := b.PutStateRaw(k, Some(v));
              ok := r.Ok?;
            case RemoveOp(k) =>
              var r := b.RemoveState(k);
              ok := r.Ok?;
            case EmitOp(e) =>
              var r := b.Dispatch(e, true, eventValidate);
              ok := r.Ok?;
          }
      }
    }

    /** A listener's steps through the command's stub, up to the first that
        fails. */
    method RunSteps(s: StubRef, ops: seq<StubOp>) returns (ok: bool)
      requires StubValid(s)
      modifies Footprint(s)
      ensures StubValid(s)
      ensures s.Direct? ==>
        exists n :: 0 <= n <= |ops| && s.stub.ledger.writes == old(s.stub.ledger.writes) + ScriptWrites(ops[..n])
      ensures s.Direct? && ok ==> s.stub.ledger.writes == old(s.stub.ledger.writes) + ScriptWrites(ops)
    {
      var i := 0;
      while i < |ops|
        invariant 0 <= i <= |ops|
        invariant StubValid(s)
        invariant s.Direct? ==> s.stub.ledger.writes == old(s.stub.ledger.writes) + ScriptWrites(ops[..i])
      {
        ok := ApplyOp(s, ops[i]);
        if !ok {
          return;
        }
        ScriptWritesSnoc(ops, i);
        i := i + 1;
      }
      assert ops[..i] == ops;
      ok := true;
    }

    /** A listener's `wait` calls, up to the first that throws. */
    method RunWaits(handle: Handle, waits: nat, now: int) returns (ok: bool)
      requires StubValid(handle.stub)
      modifies this`settled, this`requests, Footprint(handle.stub)
      ensures StubValid(handle.stub)
      ensures requests.Keys <= old(requests).Keys
      ensures handle.command.id !in old(requests) ==> settled == old(settled)
      ensures Keeps(old(settled), settled)
      ensures handle.stub.Direct? ==> handle.stub.stub.ledger.writes == old(handle.stub.stub.ledger.writes)
    {
      var w := 0;
      while w < waits
        invariant StubValid(handle.stub)
        invariant requests.Keys <= old(requests).Keys
        invariant handle.command.id !in old(requests) ==> settled == old(settled)
        invariant Keeps(old(settled), settled)
        invariant handle.stub.Direct? ==> handle.stub.stub.ledger.writes == old(handle.stub.stub.ledger.writes)
      {
        var r := Wait(handle, now);
        if r.Err? {
          return false;
        }
        w := w + 1;
      }
      ok := true;
    }

    /** A listener at work: its steps, its waits, then `complete`. It returns
        whether the listener reached `complete`. */
    method RunScript(handle: Handle, script: Script, now: int) returns (finished: bool)
      requires StubValid(handle.stub)
      modifies this`settled, this`requests, Footprint(handle.stub)
      ensures StubValid(handle.stub)
      ensures requests.Keys <= old(requests).Keys
      ensures finished ==> handle.command.id !in requests
      ensures handle.command.id !in old(requests) ==> settled == old(settled)
      ensures Keeps(old(settled), settled)
      ensures handle.stub.Direct? ==>
        exists n :: 0 <= n <= |script.ops|
          && handle.stub.stub.ledger.writes == old(handle.stub.stub.ledger.writes) + ScriptWrites(script.ops[..n])
    {
      var ok := RunSteps(handle.stub, script.ops);
      if !ok {
        return false;
      }
      assert script.ops[..|script.ops|] == script.ops;
      ok := RunWaits(handle, script.waits, now);
      if !ok {
        return false;
      }
      Complete(handle, script.result, now);
      finished := true;
    }

    /** The steps the listener registered for a command takes (none when no
        listener is registered). */
    function ListenerOps(command: Command): seq<StubOp>
    {
      if command.name in listeners then listeners[command.name](command).ops else []
    }

    /** The base `executeCommand(payload, command)`: hand the command to its
        listener, or complete it with a "No listener" error. */
    method ExecuteListener(handle: Handle, now: int)
      requires StubValid(handle.stub)
      modifies this`settled, this`requests, Footprint(handle.stub)
      ensures StubValid(handle.stub)
      ensures requests.Keys <= old(requests).Keys
      ensures handle.command.name !in listeners && handle.command.id in old(requests) ==>
        var item := old(requests)[handle.command.id];
        requests == old(requests) - {handle.command.id}
        && settled == SettleIn(old(settled), item.ticket, Completion(item, handle.command, Failure(NoListener(handle.command.name)), now))
      ensures Keeps(old(settled), settled)
      ensures handle.stub.Direct? ==>
        exists n :: 0 <= n <= |ListenerOps(handle.command)|
          && handle.stub.stub.ledger.writes == old(handle.stub.stub.ledger.writes) + ScriptWrites(ListenerOps(handle.command)[..n])
    {
      if handle.command.name !in listeners {
        Complete(handle, Failure(NoListener(handle.command.name)), now);
        assert ListenerOps(handle.command)[..0] == [];
      } else {
        var script := listeners[handle.command.name](handle.command);
        assert ListenerOps(handle.command) == script.ops;
        var _ := RunScript(handle, script, now);
      }
    }

    // -------------------------------------------------------------------------
    //  Batching
    // -------------------------------------------------------------------------

    /** Why `addToBatch` throws: a destroyed stub or a ledger without a
        transaction time has no date to read, and `putState` refuses a payload
        that fails its validation or transformation. */
    function QueueRefusal(payload: RequestPayload, destroyed: bool, txTime: Option<int>): Option<Error>
    {
      if destroyed || txTime.None? then Some(NullReference("getTime"))
      else match PreparePut(transforms, PayloadJson(payload), true, true, true)
        case Err(e) => Some(e)
        case Ok(_) => None
    }

    /** Why the batching `executeCommand` throws before anything completes: a
        readonly command never does; the batch command cannot read the queue
        through a destroyed stub; any other command cannot be queued. */
    function BatchRefusal(payload: RequestPayload, destroyed: bool, txTime: Option<int>): Option<Error>
    {
      if Truthy(payload.isReadonly) then None
      else if IsCommandBatch(payload.name) then (if destroyed then Some(NullReference("getStateByRange")) else None)
      else QueueRefusal(payload, destroyed, txTime)
    }

    /** `addToBatch(payload, stub, command)`: store the payload under its
        batch key through the invocation's stub, and answer with the
        transaction hash. */
    method AddToBatch(payload: RequestPayload, stub: TransportFabricStub, command: Command) returns (r: Result<string>)
      modifies stub.ledger`writes
      ensures r.Err? <==> QueueRefusal(payload, stub.destroyed, stub.ledger.txTime).Some?
      ensures r.Err? ==>
        r.error == QueueRefusal(payload, stub.destroyed, stub.ledger.txTime).value
        && stub.ledger.writes == old(stub.ledger.writes)
      ensures r.Ok? ==>
        var stored := PreparePut(transforms, PayloadJson(payload), true, true, true);
        stored.Ok? && r.value == stub.ledger.txId
        && stub.ledger.writes == old(stub.ledger.writes)
             + [PutOp(ToBatchKey(stub.ledger.txTime.value, stub.ledger.txId, command.id), stub.codec.stringify(stored.value))]
    {
      var date := stub.TransactionDate();
      if date.None? {
        return Err(NullReference("getTime"));
      }
      var hash := stub.TransactionHash();
      var key := ToBatchKey(date.value, hash.value, command.id);
      var written := stub.PutState(key, PayloadJson(payload), transforms, true, true, true);
      if written.Err? {
        return Err(written.error);
      }
      r := Ok(stub.TransactionHash().value);
    }

    /** `executeBatchedCommand(batchKey, chaincodeStub, wrapper, payload)`: run
        one queued command through the base dispatch on a batch stub over the
        shared wrapper, and give back how the promise of its request entry
        was settled (None while it is pending). */
    method ExecuteBatchedCommand(batchKey: string, wrapper: StubWrapper, payload: RequestPayload, now: int)
      returns (s: Option<Settlement>)
      requires wrapper.Valid()
      modifies this`settled, this`requests, this`nextTicket, wrapper
      ensures wrapper.Valid()
      ensures Keeps(old(settled), settled)
      ensures var t := old(Received(CreateCommand(payload), payload, now)).ticket;
        s == (if t in settled then Some(settled[t]) else None)
    {
      var b := new StubBatch(BatchKeyToHash(batchKey), BatchKeyToDate(batchKey), wrapper, payload);
      var handle := Handle(CreateCommand(payload), Batched(b));
      var item := CheckRequestStorage(handle.command, payload, now);
      ExecuteListener(handle, now);
      b.Destroy();
      s := if item.ticket in settled then Some(settled[item.ticket]) else None;
    }

    /** How a queue entry is read back: its stored text parsed and turned
        into a payload; a missing value fails where its `id` is read. */
    function QueuedPayload(item: KeyValue): Result<RequestPayload>
    {
      if item.value.None? then Err(NullReference("id"))
      else match codec.parse(item.value.value)
        case Err(e) => Err(e)
        case Ok(j) => Validate(ToRaw(j), _ => true)
    }

    /** What an entry that was run contributes to the response: the error it
        could not be read back with, or the way a promise was settled. */
    ghost predicate EntryResult(item: KeyValue, result: Json, promises: map<nat, Settlement>)
    {
      match QueuedPayload(item)
      case Err(e) => result == ErrorJson(e)
      case Ok(_) => exists t :: t in promises && result == SettlementJson(promises[t])
    }

    lemma EntryResultsKept(queue: seq<KeyValue>, results: seq<Json>, before: map<nat, Settlement>, after: map<nat, Settlement>)
      requires |results| <= |queue| && Keeps(before, after)
      requires forall j :: 0 <= j < |results| ==> EntryResult(queue[j], results[j], before)
      ensures forall j :: 0 <= j < |results| ==> EntryResult(queue[j], results[j], after)
    {
      forall j | 0 <= j < |results|
        ensures EntryResult(queue[j], results[j], after)
      {
        if QueuedPayload(queue[j]).Ok? {
          var t :| t in before && results[j] == SettlementJson(before[t]);
          assert after[t] == before[t];
        }
      }
    }

    lemma EntryResultsSnoc(queue: seq<KeyValue>, results: seq<Json>, r: Json, promises: map<nat, Settlement>)
      requires |results| < |queue| && EntryResult(queue[|results|], r, promises)
      requires forall j :: 0 <= j < |results| ==> EntryResult(queue[j], results[j], promises)
      ensures forall j :: 0 <= j < |results| + 1 ==> EntryResult(queue[j], (results + [r])[j], promises)
    {
      forall j | 0 <= j < |results| + 1
        ensures EntryResult(queue[j], (results + [r])[j], promises)
      {
        if j < |results| {
          assert (results + [r])[j] == results[j];
        }
      }
    }

    /** What running the queue promises, given the results of the entries it
        got through: each result is its entry's; the flush either ends with
        the response object collected from all of them, or stops at an entry
        that was read back as a payload and whose promise did not settle. */
    ghost predicate FlushReport(queue: seq<KeyValue>, f: Flush, results: seq<Json>, promises: map<nat, Settlement>)
    {
      |results| <= |queue|
      && (forall j :: 0 <= j < |results| ==> EntryResult(queue[j], results[j], promises))
      && match f
         case Flushed(response) => |results| == |queue| && response == Collect(HashList(queue), results)
         case Stalled => |results| < |queue| && QueuedPayload(queue[|results|]).Ok?
         case FlushFailed(_) => false
    }

    /** One entry of the queue: read it back as a payload and run it. The
        result is the error it could not be read back with, or how its
        request's promise was settled; None while that promise is pending. */
    method ExecuteQueued(item: KeyValue, wrapper: StubWrapper, now: int) returns (result: Option<Json>)
      requires wrapper.Valid()
      modifies this`settled, this`requests, this`nextTicket, wrapper
      ensures wrapper.Valid()
      ensures Keeps(old(settled), settled)
      ensures QueuedPayload(item).Err? ==> result == Some(ErrorJson(QueuedPayload(item).error)) && settled == old(settled)
      ensures QueuedPayload(item).Ok? ==>
        var p := QueuedPayload(item).value;
        var t := old(Received(CreateCommand(p), p, now)).ticket;
        result == (if t in settled then Some(SettlementJson(settled[t])) else None)
    {
      var payload := QueuedPayload(item);
      if payload.Err? {
        return Some(ErrorJson(payload.error));
      }
      var s := ExecuteBatchedCommand(item.key, wrapper, payload.value, now);
      result := if s.None? then None else Some(SettlementJson(s.value));
    }

    /** `executeBatch(stubOriginal, stub)`: run the queued commands in key
        order over one fresh wrapper, collect each result under its hash (a
        later one replaces an earlier), delete each queue key through the
        invocation's stub, and destroy the wrapper without committing it: the
        only writes reaching the ledger are the deletes of the queue keys.
        `results` are the results of the entries that were run. */
    method ExecuteBatch(stub: TransportFabricStub, now: int) returns (f: Flush, ghost results: seq<Json>)
      requires stub.Valid()
      modifies this`settled, this`requests, this`nextTicket, stub.ledger`writes
      ensures f.FlushFailed? <==> stub.destroyed
      ensures f.FlushFailed? ==>
        f.error == NullReference("getStateByRange") && stub.ledger.writes == old(stub.ledger.writes)
        && settled == old(settled) && requests == old(requests) && nextTicket == old(nextTicket)
      ensures Keeps(old(settled), settled)
      ensures !f.FlushFailed? ==>
        var queue := Drained(stub.ledger.scan(PREFIX, GetFinish(PREFIX)));
        |results| <= |queue| && FlushReport(queue, f, results, settled)
        && stub.ledger.writes == old(stub.ledger.writes) + KeyDeletes(queue[..|results|])
    {
      var database := new DatabaseManager(stub);
      var items := database.GetKV(PREFIX, None);
      if items.Err? {
        f, results := FlushFailed(items.error), [];
        return;
      }
      f, results := RunQueue(stub, items.value, now);
    }

    /** One turn of the flush loop: run the entry and, once it has a result,
        delete its queue key through the invocation's stub. */
    method FlushEntry(stub: TransportFabricStub, item: KeyValue, wrapper: StubWrapper, now: int) returns (result: Option<Json>)
      requires !stub.destroyed && wrapper.Valid()
      modifies this`settled, this`requests, this`nextTicket, wrapper, stub.ledger`writes
      ensures wrapper.Valid()
      ensures Keeps(old(settled), settled)
      ensures result.None? ==> QueuedPayload(item).Ok? && stub.ledger.writes == old(stub.ledger.writes)
      ensures result.Some? ==>
        EntryResult(item, result.value, settled) && stub.ledger.writes == old(stub.ledger.writes) + [DeleteOp(item.key)]
      ensures QueuedPayload(item).Err? ==> result == Some(ErrorJson(QueuedPayload(item).error)) && settled == old(settled)
      ensures QueuedPayload(item).Ok? ==>
        var p := QueuedPayload(item).value;
        var t := old(Received(CreateCommand(p), p, now)).ticket;
        result == (if t in settled then Some(SettlementJson(settled[t])) else None)
    {
      result := ExecuteQueued(item, wrapper, now);
      if result.Some? {
        var _ := stub.RemoveState(item.key);
      }
    }

    /** The loop of `executeBatch` over the queued entries. */
    method RunQueue(stub: TransportFabricStub, queue: seq<KeyValue>, now: int) returns (f: Flush, ghost results: seq<Json>)
      requires !stub.destroyed
      modifies this`settled, this`requests, this`nextTicket, stub.ledger`writes
      ensures |results| <= |queue| && FlushReport(queue, f, results, settled)
      ensures stub.ledger.writes == old(stub.ledger.writes) + KeyDeletes(queue[..|results|])
      ensures Keeps(old(settled), settled)
    {
      var wrapper := new StubWrapper(stub.ledger);
      var response: seq<(string, Json)> := [];
      results := [];
      var i := 0;
      while i < |queue|
        invariant 0 <= i <= |queue| && |results| == i
        invariant wrapper.Valid() && fresh(wrapper)
        invariant stub.ledger.writes == old(stub.ledger.writes) + KeyDeletes(queue[..i])
        invariant response == Collect(HashList(queue)[..i], results)
        invariant forall j :: 0 <= j < i ==> EntryResult(queue[j], results[j], settled)
        invariant Keeps(old(settled), settled)
      {
        ghost var before := settled;
        var result := FlushEntry(stub, queue[i], wrapper, now);
        EntryResultsKept(queue, results, before, settled);
        KeepsTrans(old(settled), before, settled);
        if result.None? {
          f := Stalled;
          return;
        }
        CollectSnoc(HashList(queue), results, result.value);
        EntryResultsSnoc(queue, results, result.value, settled);
        response := Assign(response, HashKey(queue[i].key), result.value);
        results := results + [result.value];
        KeyDeletesStep(old(stub.ledger.writes), queue, i);
        i := i + 1;
      }
      assert queue[..i] == queue && HashList(queue)[..i] == HashList(queue);
      var _ := wrapper.Destroy();
      f := Flushed(response);
    }

    /** The batching `executeCommand(stubOriginal, payload, stub, command)`:
        a readonly payload goes to the base dispatch; the batch command runs
        the queue and completes with the response object; any other command
        is queued and completes with the transaction hash. For the batch
        command, `flush` and `results` are what running the queue gave and
        `table` and `promises` the request table and settlements it left. */
    method ExecuteBatchCommand(payload: RequestPayload, handle: Handle, now: int)
      returns (r: Result<()>, ghost flush: Flush, ghost results: seq<Json>,
               ghost table: map<string, RequestStorage>, ghost promises: map<nat, Settlement>)
      requires handle.stub.Direct? && handle.stub.stub.Valid()
      modifies this`settled, this`requests, this`nextTicket, Footprint(handle.stub)
      ensures handle.stub.stub.Valid()
      ensures Keeps(old(settled), settled)
      ensures r.Err? <==> old(BatchRefusal(payload, handle.stub.stub.destroyed, handle.stub.stub.ledger.txTime)).Some?
      ensures r.Err? ==>
        r.error == old(BatchRefusal(payload, handle.stub.stub.destroyed, handle.stub.stub.ledger.txTime)).value
        && handle.stub.stub.ledger.writes == old(handle.stub.stub.ledger.writes)
        && settled == old(settled) && requests == old(requests) && nextTicket == old(nextTicket)
      ensures Truthy(payload.isReadonly) ==>
        nextTicket == old(nextTicket)
        && exists n :: 0 <= n <= |ListenerOps(handle.command)|
             && handle.stub.stub.ledger.writes == old(handle.stub.stub.ledger.writes) + ScriptWrites(ListenerOps(handle.command)[..n])
      ensures Truthy(payload.isReadonly) && handle.command.name !in listeners && handle.command.id in old(requests) ==>
        var item := old(requests)[handle.command.id];
        requests == old(requests) - {handle.command.id}
        && settled == SettleIn(old(settled), item.ticket, Completion(item, handle.command, Failure(NoListener(handle.command.name)), now))
      ensures !Truthy(payload.isReadonly) && !IsCommandBatch(payload.name) && r.Ok? ==>
        var st := handle.stub.stub;
        var stored := PreparePut(transforms, PayloadJson(payload), true, true, true);
        stored.Ok?
        && st.ledger.writes == old(st.ledger.writes)
             + [PutOp(ToBatchKey(st.ledger.txTime.value, st.ledger.txId, handle.command.id), st.codec.stringify(stored.value))]
        && requests == old(requests) - {handle.command.id}
        && (handle.command.id in old(requests) ==>
              var item := old(requests)[handle.command.id];
              settled == SettleIn(old(settled), item.ticket, Completion(item, handle.command, Data(Some(JStr(st.ledger.txId))), now)))
      ensures !Truthy(payload.isReadonly) && IsCommandBatch(payload.name) && r.Ok? ==>
        var st := handle.stub.stub;
        var queue := Drained(st.ledger.scan(PREFIX, GetFinish(PREFIX)));
        |results| <= |queue| && FlushReport(queue, flush, results, promises) && Keeps(old(settled), promises)
        && st.ledger.writes == old(st.ledger.writes) + KeyDeletes(queue[..|results|])
        && (flush.Stalled? ==> requests == table && settled == promises)
        && (flush.Flushed? ==>
              requests == table - {handle.command.id}
              && settled == if handle.command.id in table
                  then SettleIn(promises, table[handle.command.id].ticket,
                                Completion(table[handle.command.id], handle.command, Data(Some(JObj(flush.response))), now))
                  else promises)
    {
      flush, results, table, promises := Stalled, [], requests, settled;
      if Truthy(payload.isReadonly) {
        ExecuteListener(handle, now);
        return Ok(()), flush, results, table, promises;
      }
      var st := handle.stub.stub;
      if IsCommandBatch(payload.name) {
        var f;
        f, results := ExecuteBatch(st, now);
        flush, table, promises := f, requests, settled;
        match f
        case Flushed(response) =>
          Complete(handle, Data(Some(JObj(response))), now);
          r := Ok(());
        case Stalled =>
          r := Ok(());
        case FlushFailed(e) =>
          r := Err(e);
      } else {
        var hash := AddToBatch(payload, st, handle.command);
        if hash.Err? {
          return Err(hash.error), flush, results, table, promises;
        }
        Complete(handle, Data(Some(JStr(hash.value))), now);
        r := Ok(());
      }
    }

    // -------------------------------------------------------------------------
    //  Invocation
    // -------------------------------------------------------------------------

    /** `invoke(chaincode)`: parse, build the stub and the command, check the
        signature unless the command is exempt; any failure there is answered
        with an error response and nothing else happens. Otherwise the request
        is recorded; an already expired one is dropped without a response;
        the rest are dispatched and the invocation returns how the request's
        promise was settled. */
    method Invoke(chaincode: ChaincodeStub, now: int) returns (outcome: InvokeOutcome)
      modifies this`settled, this`requests, this`nextTicket, chaincode
      ensures Parse(chaincode.fcn, chaincode.params, codec, optionsValid).Err? ==>
        outcome == Responded(ResponsePayload(None, Failure(Parse(chaincode.fcn, chaincode.params, codec, optionsValid).error)))
        && requests == old(requests) && settled == old(settled) && nextTicket == old(nextTicket)
        && chaincode.writes == old(chaincode.writes) && chaincode.events == old(chaincode.events)
      ensures Parse(chaincode.fcn, chaincode.params, codec, optionsValid).Ok? ==>
        var p := Parse(chaincode.fcn, chaincode.params, codec, optionsValid).value;
        (SignatureCheck(p).Err? ==>
          outcome == Responded(ResponsePayload(Some(p.id), Failure(SignatureCheck(p).error)))
          && requests == old(requests) && settled == old(settled) && nextTicket == old(nextTicket)
          && chaincode.writes == old(chaincode.writes) && chaincode.events == old(chaincode.events))
        && (SignatureCheck(p).Ok? && timing.isExpired(old(Received(CreateCommand(p), p, now)), now) ==>
          outcome == NoResponse && requests == old(requests) - {p.id} && settled == old(settled)
          && chaincode.writes == old(chaincode.writes) && chaincode.events == old(chaincode.events))
        && (SignatureCheck(p).Ok? && !timing.isExpired(old(Received(CreateCommand(p), p, now)), now) ==>
          var item := old(Received(CreateCommand(p), p, now));
          var refusal := if batching then BatchRefusal(p, false, chaincode.txTime) else None;
          (refusal.Some? ==>
             outcome == Thrown(refusal.value) && requests == old(requests)[p.id := item] && settled == old(settled))
          && (refusal.None? ==> outcome == Answer(settled, item.ticket)))
      ensures Keeps(old(settled), settled)
      ensures Parse(chaincode.fcn, chaincode.params, codec, optionsValid).Ok? ==>
        var p := Parse(chaincode.fcn, chaincode.params, codec, optionsValid).value;
        var item := old(Received(CreateCommand(p), p, now));
        (SignatureCheck(p).Ok? && !timing.isExpired(item, now)
         && (!batching || Truthy(p.isReadonly)) && p.name !in listeners ==>
           requests == old(requests) - {p.id}
           && settled == SettleIn(old(settled), item.ticket, Resolved(ResponsePayload(Some(p.id), Failure(NoListener(p.name))))))
        && (SignatureCheck(p).Ok? && !timing.isExpired(item, now)
            && batching && !Truthy(p.isReadonly) && !IsCommandBatch(p.name) && QueueRefusal(p, false, chaincode.txTime).None? ==>
           requests == old(requests) - {p.id}
           && settled == SettleIn(old(settled), item.ticket, Resolved(ResponsePayload(Some(p.id), Data(Some(JStr(chaincode.txId)))))))
    {
      var parsed := Parse(chaincode.fcn, chaincode.params, codec, optionsValid);
      if parsed.Err? {
        return Responded(ResponsePayload(None, Failure(parsed.error)));
      }
      var payload := parsed.value;
      var stub := new TransportFabricStub(chaincode, Some(payload.id), Some(payload.options), true, codec);
      var check := SignatureCheck(payload);
      if check.Err? {
        return Responded(ResponsePayload(Some(payload.id), Failure(check.error)));
      }
      outcome := Accept(payload, Handle(CreateCommand(payload), Direct(stub)), now);
    }

    /** The part of `invoke` after the checks: record the request, drop it
        when already expired, otherwise dispatch it and answer with how its
        promise was settled. */
    method Accept(payload: RequestPayload, handle: Handle, now: int) returns (outcome: InvokeOutcome)
      requires handle.stub.Direct? && handle.stub.stub.Valid() && handle.command == CreateCommand(payload)
      modifies this`settled, this`requests, this`nextTicket, Footprint(handle.stub)
      ensures timing.isExpired(old(Received(handle.command, payload, now)), now) ==>
        outcome == NoResponse && requests == old(requests) - {payload.id} && settled == old(settled)
        && unchanged(Footprint(handle.stub))
      ensures !timing.isExpired(old(Received(handle.command, payload, now)), now) ==>
        var item := old(Received(handle.command, payload, now));
        var refusal := if batching
          then old(BatchRefusal(payload, handle.stub.stub.destroyed, handle.stub.stub.ledger.txTime)) else None;
        (refusal.Some? ==>
           outcome == Thrown(refusal.value) && requests == old(requests)[payload.id := item] && settled == old(settled))
        && (refusal.None? ==> outcome == Answer(settled, item.ticket))
      ensures Keeps(old(settled), settled)
      ensures (!timing.isExpired(old(Received(handle.command, payload, now)), now)
               && (!batching || Truthy(payload.isReadonly)) && payload.name !in listeners) ==>
        var item := old(Received(handle.command, payload, now));
        requests == old(requests) - {payload.id}
        && settled == SettleIn(old(settled), item.ticket,
                               Resolved(ResponsePayload(Some(payload.id), Failure(NoListener(payload.name)))))
      ensures (!timing.isExpired(old(Received(handle.command, payload, now)), now)
               && batching && !Truthy(payload.isReadonly) && !IsCommandBatch(payload.name)
               && old(QueueRefusal(payload, handle.stub.stub.destroyed, handle.stub.stub.ledger.txTime)).None?) ==>
        var item := old(Received(handle.command, payload, now));
        requests == old(requests) - {payload.id}
        && settled == SettleIn(old(settled), item.ticket,
                               Resolved(ResponsePayload(Some(payload.id), Data(Some(JStr(handle.stub.stub.ledger.txId))))))
    {
      var item := CheckRequestStorage(handle.command, payload, now);
      if timing.isExpired(item, now) {
        requests := requests - {payload.id};
        return NoResponse;
      }
      if batching {
        var r;
        ghost var flush, results, table, promises;
        r, flush, results, table, promises := ExecuteBatchCommand(payload, handle, now);
        if r.Err? {
          return Thrown(r.error);
        }
      } else {
        ExecuteListener(handle, now);
      }
      outcome := Answer(settled, item.ticket);
    }
  }
}
