/** `TransportFabricBlockParserBatch`: the decoder of a block for a client of
    a batching chaincode. A block matters only when it holds the batch
    transaction with its response; the commands the batch ran are then
    fetched from the ledger one by one and reported with the responses the
    batch recorded for them. */
module BlockParserBatch {
  import opened Common
  import opened Constants
  import opened Stub
  import opened BlockParser

  /** Fabric's `TxValidationCode.VALID`. */
  const VALID: int := 0
  /** Fabric's `TxValidationCode.INVALID_OTHER_REASON`. */
  const INVALID_OTHER_REASON: int := 255

  /** The two ledger queries the decoder makes (`api.getTransaction(hash)` and
      the number of `api.getBlockByTxID(hash)`); either may fail. */
  datatype FabricApi = FabricApi(
    getTransaction: string -> Result<FabricTransaction>,
    getBlockByTxID: string -> Result<int>)

  /** A transaction whose request is the batch command. */
  predicate IsBatchTransaction(t: Transaction)
  {
    !IsNil(t.request) && Member(t.request.value, "name") == Some(JStr(TRANSPORT_FABRIC_COMMAND_BATCH_NAME))
  }

  /** `getBatchTransaction(block)`: the index of the first batch transaction. */
  function FindBatch(transactions: seq<Transaction>): (r: Option<nat>)
    ensures r.Some? ==> r.value < |transactions| && IsBatchTransaction(transactions[r.value])
    ensures r.Some? ==> forall j :: 0 <= j < r.value ==> !IsBatchTransaction(transactions[j])
    ensures r.None? <==> forall j :: 0 <= j < |transactions| ==> !IsBatchTransaction(transactions[j])
  {
    if |transactions| == 0 then None
    else if IsBatchTransaction(transactions[0]) then Some(0)
    else
      var rest := FindBatch(transactions[1..]);
      assert forall j :: 0 < j < |transactions| ==> transactions[j] == transactions[1..][j - 1];
      if rest.Some? then Some(rest.value + 1) else None
  }

  /** A valid transaction whose recorded response is an error is reported as
      invalid; any other code is kept. */
  function Downgrade(code: Option<int>, response: Json): (r: Option<int>)
    ensures r == Some(VALID) ==> !IsErrorJson(response)
    ensures !IsErrorJson(response) ==> r == code
    ensures code != Some(VALID) ==> r == code
  {
    if code == Some(VALID) && IsErrorJson(response) then Some(INVALID_OTHER_REASON) else code
  }

  /** One command of the batch: the transaction that queued it, fetched and
      decoded, with the block it was mined in and the response the batch
      recorded for it. */
  function ResolveCommand(codec: Codec, api: FabricApi, hash: string, response: Json): (r: Result<Transaction>)
    ensures r.Ok? ==>
      api.getTransaction(hash).Ok? && api.getBlockByTxID(hash).Ok?
      && ParseTransaction(codec, api.getTransaction(hash).value).Ok?
      && r.value.response == Some(response)
      && r.value.blockMined == Some(api.getBlockByTxID(hash).value)
      && r.value.hash == ParseTransaction(codec, api.getTransaction(hash).value).value.hash
      && r.value.validationCode == Downgrade(api.getTransaction(hash).value.validationCode, response)
  {
    match api.getTransaction(hash)
    case Err(e) => Err(e)
    case Ok(original) =>
      match api.getBlockByTxID(hash)
      case Err(e) => Err(e)
      case Ok(blockMined) =>
        match ParseTransaction(codec, original)
        case Err(e) => Err(e)
        case Ok(t) =>
          Ok(t.(blockMined := Some(blockMined), response := Some(response),
                validationCode := Downgrade(t.validationCode, response)))
  }

  /** The commands of the batch, in the order of the recorded responses; the
      first that cannot be fetched makes the whole call fail. */
  function ResolveAll(codec: Codec, api: FabricApi, entries: seq<(string, Json)>): (r: Result<seq<Transaction>>)
    ensures r.Ok? ==> |r.value| == |entries|
    ensures r.Ok? ==> forall k :: 0 <= k < |entries| ==>
      r.value[k].response == Some(entries[k].1) && r.value[k].blockMined.Some?
      && (r.value[k].validationCode == Some(VALID) ==> !IsErrorJson(entries[k].1))
  {
    if |entries| == 0 then Ok([])
    else
      match ResolveAll(codec, api, entries[..|entries| - 1])
      case Err(e) => Err(e)
      case Ok(front) =>
        match ResolveCommand(codec, api, entries[|entries| - 1].0, entries[|entries| - 1].1)
        case Err(e) => Err(e)
        case Ok(last) =>
          assert forall k :: 0 <= k < |entries| - 1 ==> entries[..|entries| - 1][k] == entries[k];
          Ok(front + [last])
  }

  /** The recorded responses of a batch transaction's response
      (`payload.response`), in key order; none when it is not an object. */
  function Entries(response: Json): seq<(string, Json)>
  {
    match Member(response, "response")
    case Some(JObj(members)) => members
    case _ => []
  }

  /** What `parse(block)` gives. */
  function BatchBlockOf(codec: Codec, api: FabricApi, block: Block): Result<ParsedBlock>
  {
    match BlockOf(codec, block)
    case Err(e) => Err(e)
    case Ok(None) => Err(NullReference("transactions"))
    case Ok(Some(item)) =>
      var index := FindBatch(item.transactions);
      if index.None? || IsNil(item.transactions[index.value].response) then
        Ok(item.(events := [], transactions := [], isBatch := false))
      else
        var batch := item.transactions[index.value];
        match ResolveAll(codec, api, Entries(batch.response.value))
        case Err(e) => Err(e)
        case Ok(commands) => Ok(item.(transactions := [batch] + commands, isBatch := true))
  }

  /** `parse(block)`: the base decoding, then the batch transaction and the
      commands it ran, fetched one by one. A block without entries throws. */
  method Parse(codec: Codec, api: FabricApi, block: Block) returns (r: Result<ParsedBlock>)
    ensures r == BatchBlockOf(codec, api, block)
  {
    var base := BlockParser.Parse(codec, block);
    if base.Err? {
      return Err(base.error);
    }
    if base.value.None? {
      return Err(NullReference("transactions"));
    }
    var item := base.value.value;
    var index := FindBatch(item.transactions);
    if index.None? || IsNil(item.transactions[index.value].response) {
      return Ok(item.(events := [], transactions := [], isBatch := false));
    }
    var batch := item.transactions[index.value];
    var commands := ResolveCommands(codec, api, Entries(batch.response.value));
    if commands.Err? {
      return Err(commands.error);
    }
    r := Ok(item.(transactions := [batch] + commands.value, isBatch := true));
  }

  /** The loop over `payload.response`: each command fetched in turn. */
  method ResolveCommands(codec: Codec, api: FabricApi, entries: seq<(string, Json)>) returns (r: Result<seq<Transaction>>)
    ensures r == ResolveAll(codec, api, entries)
  {
    var commands: seq<Transaction> := [];
    var i := 0;
    while i < |entries|
      invariant 0 <= i <= |entries|
      invariant ResolveAll(codec, api, entries[..i]) == Ok(commands)
    {
      assert entries[..i + 1][..i] == entries[..i];
      var command := ResolveCommand(codec, api, entries[i].0, entries[i].1);
      if command.Err? {
        assert ResolveAll(codec, api, entries[..i + 1]) == Err(command.error);
        ResolveAllStops(codec, api, entries, i + 1);
        return Err(command.error);
      }
      commands := commands + [command.value];
      i := i + 1;
    }
    assert entries[..i] == entries;
    r := Ok(commands);
  }

  /** A prefix of the responses that fails makes the whole list fail with the
      same error. */
  lemma {:induction false} ResolveAllStops(codec: Codec, api: FabricApi, entries: seq<(string, Json)>, n: nat)
    requires n <= |entries| && ResolveAll(codec, api, entries[..n]).Err?
    ensures ResolveAll(codec, api, entries) == ResolveAll(codec, api, entries[..n])
    decreases |entries| - n
  {
    if n < |entries| {
      var m := |entries| - 1;
      assert entries[..m][..n] == entries[..n];
      ResolveAllStops(codec, api, entries[..m], n);
    } else {
      assert entries[..n] == entries;
    }
  }

  /** A block that is not a batch reports nothing; a batch block reports the
      batch transaction first, then one transaction per recorded response,
      carrying that response, and never reports as valid a command whose
      recorded response is an error. */
  lemma BatchBlockShape(codec: Codec, api: FabricApi, block: Block)
    requires BatchBlockOf(codec, api, block).Ok?
    ensures var b := BatchBlockOf(codec, api, block).value;
      !b.isBatch ==> b.events == [] && b.transactions == []
    ensures var b := BatchBlockOf(codec, api, block).value;
      b.isBatch ==>
        |b.transactions| >= 1 && IsBatchTransaction(b.transactions[0]) && !IsNil(b.transactions[0].response)
        && var entries := Entries(b.transactions[0].response.value);
        |b.transactions| == 1 + |entries|
        && forall k :: 0 <= k < |entries| ==>
          b.transactions[k + 1].response == Some(entries[k].1)
          && (b.transactions[k + 1].validationCode == Some(VALID) ==> !IsErrorJson(entries[k].1))
  {
    var item := BlockOf(codec, block).value.value;
    var index := FindBatch(item.transactions);
    if index.Some? && !IsNil(item.transactions[index.value].response) {
      var batch := item.transactions[index.value];
      var entries := Entries(batch.response.value);
      var commands := ResolveAll(codec, api, entries).value;
      var b := BatchBlockOf(codec, api, block).value;
      assert b.transactions == [batch] + commands;
      assert forall k :: 0 <= k < |entries| ==> b.transactions[k + 1] == commands[k];
    }
  }
}
