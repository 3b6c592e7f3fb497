# hlf-core-transport in Dafny

A model of the request/response transport that hlf-core-transport carries over
Hyperledger Fabric chaincode transactions, with proofs about it.

On the **chaincode side**:

- `TransportFabricRequestPayload.parse` turns an invocation into a request envelope.
- `TransportFabricChaincodeReceiver` does the following:
  - checks the signature;
  - records the request in its table, by correlation id;
  - hands it to the listener for its name;
  - settles the request's promise when the listener calls `complete` or `wait`.
- `TransportFabricStub` gives the listener:
  - state reads and writes over the transaction's chaincode stub;
  - a queue of transport events, emitted as one Fabric event on `destroy`.
- `TransportFabricChaincodeReceiverBatch`, the batching variant:
  - queues every non-readonly command in the ledger under a batch key `COMMAND_BATCH/<14-digit time>/<hash>/<id>`;
  - runs the queue (the *flush*) when the batch command arrives.
- In a flush, every queued command gets a `TransportFabricStubBatch` that forwards to one shared `TransportFabricStubWrapper`. That wrapper stages writes and removals in memory.
- `DatabaseManager` drains range queries.

On the **client side**:

- `TransportFabricSender` does the following:
  - builds and submits request envelopes;
  - keeps the table of commands that wait for a reply;
  - reads replies;
  - turns Fabric failures back into transport errors;
  - keeps the connection state and the reconnect counter.
- `TransportFabricSenderBatch` reads replies out of the blocks that carry a flush.
- `TransportFabricBlockParser` and `TransportFabricBlockParserBatch` decode those blocks.
- `TransportFabricSenderFactory` caches one client per connection uid.

## How the model is built

- **Modules.** There is one module per component:
  - `Payload`, `Stub`, `Wrapper`, `BatchStub`, `Database` and `BatchKeys`;
  - `Receiver`, which covers both receivers through a `batching` flag;
  - `BlockParser`, `BlockParserBatch` and `SenderFactory`;
  - `Sender`, which covers both clients through a `batching` flag.

  `Common`, `Strings`, `Constants` and `Ledger` hold shared values: JSON, errors, string helpers, and the part of Fabric's chaincode stub the transport uses.
- **Objects that update their fields in place are classes:**
  - the stub;
  - the wrapper, which holds `state` as an insertion-ordered entry list and `keysToRemove` as a sequence;
  - the batch stub;
  - the receiver, which holds the request table and the settled promises;
  - the client, which holds the connection flags and its table of waiting commands, received results and submitted transactions;
  - the factory.
- **Loops stay loops.** Each of these is a method with a loop:
  - the iterator drain;
  - the flush loop;
  - the block scan;
  - the resolution of batch commands;
  - the reconnect loop;
  - the delivery of a flush's responses.

  Each is proved against a function that states what it computes.
- **What is taken as given.** These are parameters of the model:
  - JSON text: a `Codec` of `parse`/`stringify`;
  - class transformation and validation;
  - the crypto managers' `verify`;
  - the clock and the base transport's expiry and wait-limit checks;
  - the Fabric SDK: connection attempts, transaction outcomes, `getTransaction` and `getBlockByTxID`.

  Round-trip lemmas assume that parsing what was stringified gives the value back (`RoundTrips`).

Behaviour kept as the code has it:

- **The flush never commits the wrapper.** The flush ends with `wrapper.destroy()` and no `commitToState`.
  - `Receiver.TransportReceiver.ExecuteBatch` states that a completed flush adds only the deletes of the queue keys to the write set. Whatever the batched commands wrote is lost.
  - The wrapper is built without a transport, so a batched command's `dispatch` always fails (`Wrapper.StubWrapper.Dispatch`).
  - A batch stub's `transactionHash` and `transactionDate` getters read its null chaincode stub, so they answer null (`BatchStub.StubBatch.TransactionHash`).
- **Reconnect gives up once the attempt count exceeds `reconnectMaxAttempts`.** The default is 0, so by default the first failed connection is final (`Sender.ReconnectGivesUp`).

## Model

| member | source | states |
|---|---|---|
| Payload.Validate | src/TransportFabricRequestPayload.ts:53-68 | the envelope validates exactly when `id` and `name` are strings, `options` is a valid object and `isNeedReply` is a boolean; the result carries every field as given |
| Payload.Parse | src/TransportFabricRequestPayload.ts:20-37 | the wrong function name, a parameter count other than 1 and undecodable content each give their `TransportInvalidDataError`, in that order; a parsed payload is valid |
| Payload.PayloadMember | src/TransportFabricRequestPayload.ts:53-68 | every field of an envelope's plain object is found under its own key, and no other key is present |
| Payload.PayloadRoundTrip | src/TransportFabricRequestPayload.ts:53-68 | every valid envelope survives `toClass` of its plain object followed by validation |
| Payload.ParseRoundTrip | src/TransportFabricRequestPayload.ts:20-37 | an invocation of the transport function whose one argument is a stringified valid envelope parses back to that envelope |
| Receiver.FindManager | src/chaincode/TransportFabricChaincodeReceiver.ts:210 | the manager found serves the signature's algorithm; none is found exactly when no manager serves it |
| Receiver.FindManagerFirst | src/chaincode/TransportFabricChaincodeReceiver.ts:210 | the first manager in list order that serves the algorithm is the one found |
| Receiver.ValidateSignature | src/chaincode/TransportFabricChaincodeReceiver.ts:196-219 | a nil signature and a nil nonce give their errors first; the check passes exactly when nonce, algorithm and public key are set, a manager serves the algorithm and it verifies the command |
| Receiver.SettleIn | src/chaincode/TransportFabricChaincodeReceiver.ts:101-110 | settling a promise keeps every earlier settlement; the first settlement of a ticket stands |
| Receiver.TransportReceiver.constructor | src/chaincode/TransportFabricChaincodeReceiver.ts:48-50 | a new receiver has an empty request table and no settled promise |
| Receiver.TransportReceiver.SignatureCheck | src/chaincode/TransportFabricChaincodeReceiver.ts:66-68 | a command named in a non-empty `nonSignedCommands` list skips the check; any other command gets `validateSignature` |
| Receiver.TransportReceiver.CheckRequestStorage | src/chaincode/TransportFabricChaincodeReceiver.ts:174-190 | a known id counts one more receipt; a new id gets an entry with no receipts that expires only when a reply is wanted; the entry is stored under the command id |
| Receiver.TransportReceiver.DestroyStub | src/chaincode/TransportFabricChaincodeReceiver.ts:111-113 | destroying a command destroys its stub, which emits its queued events and writes nothing |
| Receiver.TransportReceiver.Complete | src/chaincode/TransportFabricChaincodeReceiver.ts:88-114 | the entry is removed first, so an unknown or already completed id changes nothing; an expired request settles with the expiry error, any other with the result, and then its stub is destroyed |
| Receiver.TransportReceiver.Wait | src/chaincode/TransportFabricChaincodeReceiver.ts:116-128 | an unknown id throws; past the wait limit the command completes with a wait-exceeded error; otherwise nothing changes |
| Receiver.TransportReceiver.Destroy | src/chaincode/TransportFabricChaincodeReceiver.ts:146-152 | every pending request is rejected with "Chaincode destroyed", the table is emptied, and promises already settled keep their settlement |
| Receiver.TransportReceiver.ApplyOp | src/chaincode/stub/TransportFabricStub.ts:110-130 | a listener's write, removal or event through the invocation's stub succeeds exactly when the stub is alive (and, for an event, validated with a transport) and appends its writes; through a batch stub an event always fails |
| Receiver.TransportReceiver.RunSteps | src/chaincode/stub/TransportFabricStub.ts:110-130 | a listener's steps through the invocation's stub issue exactly the writes of the steps done, and all of them when no step fails |
| Receiver.TransportReceiver.RunWaits | src/chaincode/TransportFabricChaincodeReceiver.ts:116-128 | repeated waits never add requests, write nothing through the invocation's stub, and keep earlier settlements |
| Receiver.TransportReceiver.RunScript | src/chaincode/TransportFabricChaincodeReceiver.ts:226 | a listener never adds requests, one that finishes has completed its command, earlier settlements stand, and through the invocation's stub it writes exactly the writes of a prefix of its steps |
| Receiver.TransportReceiver.ExecuteListener | src/chaincode/TransportFabricChaincodeReceiver.ts:221-228 | a command without a listener completes with the "No listener" error; through the invocation's stub only the writes of a prefix of the listener's steps are issued; earlier settlements stand |
| Receiver.TransportReceiver.AddToBatch | src/chaincode/batch/TransportFabricChaincodeReceiverBatch.ts:89-92 | the payload is stored under its batch key, built from the transaction time, hash and command id, and the transaction hash is returned; it throws exactly when the stub is destroyed or has no time (the `getTime` error) or `putState` refuses the payload (that error), and then writes nothing |
| Receiver.TransportReceiver.ExecuteBatchedCommand | src/chaincode/batch/TransportFabricChaincodeReceiverBatch.ts:75-87 | a queued command runs through a batch stub over the shared wrapper and answers exactly how the promise of its request entry stands afterwards: its settlement, or None while pending; earlier settlements stand |
| Receiver.TransportReceiver.ExecuteQueued | src/chaincode/batch/TransportFabricChaincodeReceiverBatch.ts:54-66 | an entry that cannot be read back as a payload yields the plain object of that error and settles nothing; otherwise the result is the response envelope or the error its request's promise settled with, and None exactly while that promise is pending |
| Receiver.TransportReceiver.ExecuteBatch | src/chaincode/batch/TransportFabricChaincodeReceiverBatch.ts:46-73 | the flush fails with the null-reference error exactly when the stub is destroyed, changing nothing; otherwise it runs the scanned queue in order, each run entry's result is its read-back error or the outcome of a settled promise, a completed flush answers the response collected from all of them, it stops only at a read-back entry still pending, and the only writes are the deletes of the run entries' keys |
| Receiver.TransportReceiver.RunQueue | src/chaincode/batch/TransportFabricChaincodeReceiverBatch.ts:53-69 | the loop runs the entries in order, deletes each key once its entry has a result, and records that result; a completed loop's response assigns every result under its hash in queue order; it stops only at an entry read back as a payload whose promise is pending |
| Receiver.TransportReceiver.FlushEntry | src/chaincode/batch/TransportFabricChaincodeReceiverBatch.ts:54-68 | an entry that cannot be read back gives its error and settles nothing; otherwise the result is how the promise of its own request entry settled, or none while it is pending; an entry with a result has its queue key deleted, a pending one writes nothing |
| Receiver.CollectKeys | src/chaincode/batch/TransportFabricChaincodeReceiverBatch.ts:67 | the keys of the response are exactly the hashes of the entries |
| Receiver.CollectLast | src/chaincode/batch/TransportFabricChaincodeReceiverBatch.ts:67 | under a hash the response holds the result of the last entry with that hash |
| Receiver.CollectMissing | src/chaincode/batch/TransportFabricChaincodeReceiverBatch.ts:67 | a hash no entry has is absent from the response |
| Common.AssignLookup | src/chaincode/batch/TransportFabricChaincodeReceiverBatch.ts:67 | after `response[hash] = result` the hash reads as that result and every other key as before |
| Common.ErrorJsonMembers | src/chaincode/batch/TransportFabricChaincodeReceiverBatch.ts:63-65 | the plain object of an error holds its message, code, details and stack under their own keys, and an absent one is absent |
| Receiver.TransportReceiver.ExecuteBatchCommand | src/chaincode/batch/TransportFabricChaincodeReceiverBatch.ts:34-44 | it throws exactly when the batch command meets a destroyed stub or another non-readonly command cannot be queued, changing nothing; a readonly payload takes the base path and writes only its listener's steps; another command is queued and completes with the transaction hash; the batch command deletes the run entries' keys and, when the flush completes, completes with the response object |
| Receiver.TransportReceiver.Invoke | src/chaincode/TransportFabricChaincodeReceiver.ts:58-86 | a parse or signature failure returns an error response carrying the payload id when parsing succeeded and touches nothing; an expired request is dropped and gives no response; otherwise a batch refusal is thrown and any other request answers with how its promise settled, or stays pending; earlier settlements are kept; a dispatched command without a listener completes with the no-listener error, and a queued command completes with the transaction hash |
| Receiver.TransportReceiver.Accept | src/chaincode/TransportFabricChaincodeReceiver.ts:75-86 | a request expired on receipt is removed and gives no response; otherwise a batch refusal is thrown with nothing settled, and any other request answers with the response or error its promise settled with, or stays pending; earlier settlements are kept; a command dispatched to the listeners without one registered is removed and completes with the no-listener error; a command queued by the batching receiver is removed and completes with the transaction hash |
| BatchKeys.BatchKeyToHash | src/chaincode/batch/TransportFabricChaincodeReceiverBatch.ts:104-106 | the hash is present exactly when the key has more than two `/`-separated parts |
| BatchKeys.NumberOf | src/chaincode/batch/TransportFabricChaincodeReceiverBatch.ts:108 | a text of decimal digits reads as its value, and the empty text as 0 |
| BatchKeys.BatchKeyToDate | src/chaincode/batch/TransportFabricChaincodeReceiverBatch.ts:107-109 | a key with fewer than two parts has no date |
| BatchKeys.PaddedTime | src/chaincode/batch/TransportFabricChaincodeReceiverBatch.ts:113 | the time padded to 14 places is a non-empty string of decimal digits with the time's value |
| BatchKeys.BatchKeyParts | src/chaincode/batch/TransportFabricChaincodeReceiverBatch.ts:111-114 | a batch key splits into the prefix, the padded time, the hash and the parts of the id |
| BatchKeys.HashRoundTrip | src/chaincode/batch/TransportFabricChaincodeReceiverBatch.ts:104-114 | the hash is read back from a batch key whatever the id, when it contains no `/` |
| BatchKeys.DateRoundTrip | src/chaincode/batch/TransportFabricChaincodeReceiverBatch.ts:107-114 | a non-negative time is read back from a batch key |
| BatchKeys.KeyOrder | src/chaincode/batch/TransportFabricChaincodeReceiverBatch.ts:111-114 | for times below 10^14, a key of an earlier time sorts first, whatever the hashes and ids |
| BatchKeys.PaddedTimeOrder | src/chaincode/batch/TransportFabricChaincodeReceiverBatch.ts:113 | below 10^14 the padded times have one length and sort as the times do |
| BatchKeys.KeyInQueueRange | src/chaincode/batch/TransportFabricChaincodeReceiverBatch.ts:46-48 | every batch key lies in the range the flush scans |
| Stub.DestroyEvents | src/chaincode/stub/TransportFabricStub.ts:138-152 | destroying a stub sets one event exactly when its queue is non-empty, and none otherwise |
| Stub.RawValue | src/chaincode/stub/TransportFabricStub.ts:71-74 | a zero-length stored value reads as null; any other reads as itself |
| Stub.DecodeState | src/chaincode/stub/TransportFabricStub.ts:59-69 | null stays null; without a class type or for a decoded null the decoded value is returned as is; otherwise the instance is returned, validated when asked |
| Stub.PreparePut | src/chaincode/stub/TransportFabricStub.ts:76-95 | the put fails exactly when validation is asked for and fails; otherwise the value is transformed and key-sorted as asked |
| Stub.TransportFabricStub.constructor | src/chaincode/stub/TransportFabricStub.ts:34-47 | the user id comes from the options and the public key from their signature, both unset for nil options; the event queue starts empty |
| Stub.TransportFabricStub.GetStateRaw | src/chaincode/stub/TransportFabricStub.ts:71-74 | a missing or zero-length value reads as null, any other as the committed value; a destroyed stub throws |
| Stub.TransportFabricStub.HasState | src/chaincode/stub/TransportFabricStub.ts:55-57 | `hasState` holds exactly when `getStateRaw` is not null |
| Stub.TransportFabricStub.GetState | src/chaincode/stub/TransportFabricStub.ts:59-69 | a missing key reads as null; without a class type the decoded raw value is returned |
| Stub.TransportFabricStub.PutStateRaw | src/chaincode/stub/TransportFabricStub.ts:110-112 | the value is appended to the write set; a null value or destroyed stub throws and writes nothing |
| Stub.TransportFabricStub.PutState | src/chaincode/stub/TransportFabricStub.ts:76-95 | the prepared value's JSON text is written under the key and the prepared value returned; a failed validation writes nothing and throws its error |
| Stub.TransportFabricStub.RemoveState | src/chaincode/stub/TransportFabricStub.ts:114-116 | a delete of the key is appended to the write set |
| Stub.TransportFabricStub.Dispatch | src/chaincode/stub/TransportFabricStub.ts:124-130 | a validated event is appended to the queue in call order; a failed validation, a missing transport or a destroyed stub leaves the queue as it was |
| Stub.TransportFabricStub.DispatchEvents | src/chaincode/stub/TransportFabricStub.ts:138-144 | an empty queue emits nothing; otherwise one `TRANSPORT_CHAINCODE_EVENT` carries every queued event in order |
| Stub.TransportFabricStub.Destroy | src/chaincode/stub/TransportFabricStub.ts:146-152 | the queued events are emitted and the stub is marked destroyed |
| Stub.TransportFabricStub.TransactionHash | src/chaincode/stub/TransportFabricStub.ts:182-184 | the hash is null exactly when the chaincode stub is gone, and otherwise is the transaction id |
| Stub.TransportFabricStub.TransactionDate | src/chaincode/stub/TransportFabricStub.ts:186-198 | the date is null once the chaincode stub is gone, and otherwise the transaction time |
| Stub.PutThenGet | src/chaincode/stub/TransportFabricStub.ts:59-95 | once committed, what `putState` stores is what `getState` reads back |
| Wrapper.Without | src/chaincode/batch/TransportFabricStubWrapper.ts:82 | removing a key from the removal list drops exactly that key and keeps the list free of repeats |
| Wrapper.FindPut | src/chaincode/batch/TransportFabricStubWrapper.ts:84 | after `state.set(key, value)` the buffer holds the value at that key and nothing else changes |
| Wrapper.FindDrop | src/chaincode/batch/TransportFabricStubWrapper.ts:91 | after `state.delete(key)` the buffer lacks the key and nothing else changes |
| Wrapper.CommitEffect | src/chaincode/batch/TransportFabricStubWrapper.ts:45-54 | after a successful commit every staged removal is gone, every staged value is written, and every other key keeps its committed value |
| Wrapper.PutsPrefix | src/chaincode/batch/TransportFabricStubWrapper.ts:49-51 | the writes of a commit stop at the first null buffered value |
| Wrapper.NotRemoved | src/chaincode/batch/TransportFabricStubWrapper.ts:64 | an entry is kept exactly when its key is not staged for removal, in order |
| Wrapper.StubWrapper.constructor | src/chaincode/batch/TransportFabricStubWrapper.ts:22-27 | a new wrapper has an empty buffer and nothing staged for removal |
| Wrapper.StubWrapper.GetStateRaw | src/chaincode/batch/TransportFabricStubWrapper.ts:68-78 | a staged removal reads as null; a buffered key reads from the buffer without reading the ledger; an untouched key is read through once and cached; the answer for every key stays the same |
| Wrapper.StubWrapper.PutStateRaw | src/chaincode/batch/TransportFabricStubWrapper.ts:80-85 | a pending removal of the key is un-staged and the value buffered, only that key's answer changes, and the ledger is not written |
| Wrapper.StubWrapper.RemoveState | src/chaincode/batch/TransportFabricStubWrapper.ts:87-92 | the key is staged for removal at most once and its buffered value dropped; only that key's answer changes, to null |
| Wrapper.StubWrapper.LoadKV | src/chaincode/batch/TransportFabricStubWrapper.ts:62-66 | the drained range minus the staged removals, in order, without buffered values; the iterator is closed once |
| Wrapper.StubWrapper.GetStateByRange | src/chaincode/stub/TransportFabricStub.ts:97-99 | the chaincode stub's range iterator, fresh and unread |
| Wrapper.StubWrapper.GetStateByRangeWithPagination | src/chaincode/stub/TransportFabricStub.ts:101-108 | the chaincode stub's paginated iterator and its metadata |
| Wrapper.StubWrapper.Dispatch | src/chaincode/batch/TransportFabricStubWrapper.ts:22-23 | the wrapper has no transport, so dispatch always fails: with the validation error, or else on the null transport |
| Wrapper.StubWrapper.CommitToState | src/chaincode/batch/TransportFabricStubWrapper.ts:45-54 | every staged removal, then every buffered value in map order, is written to the ledger; on success both buffers are emptied; a null buffered value stops the commit |
| Wrapper.StubWrapper.DeleteStaged | src/chaincode/batch/TransportFabricStubWrapper.ts:46-48 | every staged removal is deleted from the chaincode stub, in order |
| Wrapper.StubWrapper.WriteBuffered | src/chaincode/batch/TransportFabricStubWrapper.ts:49-51 | the buffered values are written in map order up to the first null; the loop fails exactly when some value is null |
| Wrapper.StubWrapper.Destroy | src/chaincode/batch/TransportFabricStubWrapper.ts:94-103 | the buffers are dropped; a second call fails |
| BatchStub.StubBatch.constructor | src/chaincode/batch/TransportFabricStubBatch.ts:24-31 | request id and user fields come from the payload, and the given hash and date are recorded |
| BatchStub.StubBatch.GetStateRaw | src/chaincode/batch/TransportFabricStubBatch.ts:43-45 | the wrapper's answer, with every key's answer kept |
| BatchStub.StubBatch.PutStateRaw | src/chaincode/batch/TransportFabricStubBatch.ts:47-49 | staged in the wrapper: only that key's answer changes |
| BatchStub.StubBatch.RemoveState | src/chaincode/batch/TransportFabricStubBatch.ts:51-53 | staged in the wrapper: the key reads as null, no other key changes |
| BatchStub.StubBatch.LoadKV | src/chaincode/batch/TransportFabricStubBatch.ts:39-41 | the wrapper's `loadKV` |
| BatchStub.StubBatch.GetStateByRange | src/chaincode/batch/TransportFabricStubBatch.ts:55-57 | the wrapper's range iterator |
| BatchStub.StubBatch.GetStateByRangeWithPagination | src/chaincode/batch/TransportFabricStubBatch.ts:59-66 | the wrapper's paginated iterator and metadata |
| BatchStub.StubBatch.Dispatch | src/chaincode/batch/TransportFabricStubBatch.ts:68-70 | forwarded to the wrapper, so it always fails |
| BatchStub.StubBatch.Destroy | src/chaincode/batch/TransportFabricStubBatch.ts:82-89 | the stub is destroyed and emits nothing |
| BatchStub.StubBatch.TransactionHash | src/chaincode/stub/TransportFabricStub.ts:182-184 | always null: the getter reads the batch stub's own null chaincode stub |
| BatchStub.StubBatch.TransactionDate | src/chaincode/stub/TransportFabricStub.ts:186-189 | always null, for the same reason |
| BatchStub.SharedStaging | src/chaincode/batch/TransportFabricStubBatch.ts:43-49 | what one command of a batch stages, another command over the same wrapper reads |
| Database.ItemsFromResponses | src/chaincode/database/DatabaseManager.ts:44-49 | every drained entry comes from an iterator answer with that key and value |
| Database.Consumed | src/chaincode/database/DatabaseManager.ts:44-54 | the drain reads up to and including the first answer marked done |
| Database.ConsumedFirstDone | src/chaincode/database/DatabaseManager.ts:50-53 | the drain stops right after the first answer marked done |
| Database.LoadKV | src/chaincode/database/DatabaseManager.ts:42-56 | the entries with a key of the answers up to the first marked done, in order, and the iterator is closed exactly once |
| Database.PrefixInRange | src/chaincode/database/DatabaseManager.ts:58-60 | the range `[start, getFinish(start))` holds every key that extends `start` by a text below `￰` |
| Database.KeyDeletes | src/chaincode/database/DatabaseManager.ts:77 | one delete per entry key, in order |
| Database.KeyDeletesPrefix | src/chaincode/database/DatabaseManager.ts:77 | deleting one more key appends its delete |
| Database.ValueDeletesSnoc | src/chaincode/database/DatabaseManager.ts:78 | one more entry adds the delete of its value when it has one |
| Database.DatabaseManager.constructor | src/chaincode/database/DatabaseManager.ts:31-34 | the manager keeps the given stub |
| Database.DatabaseManager.GetKV | src/chaincode/database/DatabaseManager.ts:68-73 | the drained range, ending at `getFinish(start)` when no end is given; a destroyed stub fails with the null-reference error |
| Database.DatabaseManager.RemoveKV | src/chaincode/database/DatabaseManager.ts:75-79 | every key of the range is deleted, then every key a stored value names; the call fails exactly when a value is null |
| Database.DatabaseManager.DeleteKeys | src/chaincode/database/DatabaseManager.ts:77 | one delete per entry key, in order |
| Database.DatabaseManager.DeleteValues | src/chaincode/database/DatabaseManager.ts:78 | one delete per stored value that is not null, in order; it fails exactly when some value is null |
| Database.DatabaseManager.GetPaginatedKV | src/chaincode/database/DatabaseManager.ts:81-93 | the page echoes the page size, takes the bookmark from the metadata, and is all loaded exactly when fewer records than the page size were fetched |
| Database.DatabaseManager.GetKeys | src/chaincode/database/DatabaseManager.ts:95-97 | the keys of `getKV`, in order |
| Database.DatabaseManager.GetValues | src/chaincode/database/DatabaseManager.ts:99-101 | the values of `getKV`, in order |
| BlockParser.SingleEventData | src/client/block/TransportFabricBlockParser.ts:24-30 | a non-JSON payload is kept as text; a JSON payload shaped `{data, name}` is unwrapped to its `data` |
| BlockParser.DecodeAll | src/client/block/TransportFabricBlockParser.ts:32 | every element decoded in order, or the error of an element that cannot be decoded |
| BlockParser.DecodeAllFirstError | src/client/block/TransportFabricBlockParser.ts:32 | the error thrown is that of the first element that cannot be decoded |
| BlockParser.BuildEvents | src/client/block/TransportFabricBlockParser.ts:32-34 | throws the null-reference error on `name` iff some decoded element is null; otherwise at most one event per element, each with a non-empty name and the header's channel, hash and time |
| BlockParser.ElementEvents | src/client/block/TransportFabricBlockParser.ts:32-34 | a decoding error is thrown before any element is read; otherwise it throws iff some element decodes to null; at most one event per array element, each with a non-empty name and the header's channel, hash and time |
| BlockParser.ElementDecodeErrorFirst | src/client/block/TransportFabricBlockParser.ts:32 | an undecodable element's error is thrown even when a null element comes before it |
| BlockParser.DecodeTexts | src/client/block/TransportFabricBlockParser.ts:32 | the queued events' texts decode into their plain objects |
| BlockParser.BuildDecoded | src/client/block/TransportFabricBlockParser.ts:32-34 | the plain objects build into the queued events, those with an empty name dropped |
| BlockParser.ParseEvents | src/client/block/TransportFabricBlockParser.ts:21-35 | another event name gives at most one event, named as the Fabric event, unless the name is empty; a non-JSON transport event throws; every event has a non-empty name and the header's fields |
| BlockParser.EventElement | src/client/block/TransportFabricBlockParser.ts:32 | an element of the transport event's array reads back as the queued event |
| BlockParser.ElementsRoundTrip | src/client/block/TransportFabricBlockParser.ts:32-34 | the event array elements read back as the queued events, those with an empty name dropped |
| BlockParser.EventsRoundTrip | src/client/block/TransportFabricBlockParser.ts:21-35 | the payload a chaincode stub emits on destroy decodes into the queued events in queue order, those with an empty name dropped |
| BlockParser.ApplyAction | src/client/block/TransportFabricBlockParser.ts:116-156 | only a transport call with exactly two arguments sets the request (its decoded second argument) and the chaincode; a response is set only from an endorsement payload; undecodable text throws; header fields are kept |
| BlockParser.ApplyActions | src/client/block/TransportFabricBlockParser.ts:108-112 | the header fields are kept, and a request or response is set only when some action is a transport call |
| BlockParser.TransactionOf | src/client/block/TransportFabricBlockParser.ts:96-114 | no transaction without a channel header; otherwise hash, channel and time come from the header, and a request implies a transport action |
| BlockParser.ParseTransactionBlockData | src/client/block/TransportFabricBlockParser.ts:96-114 | the action loop computes `TransactionOf` |
| BlockParser.ApplyActionsFails | src/client/block/TransportFabricBlockParser.ts:108-112 | the first action that throws makes the whole decoding throw its error |
| BlockParser.ParseTransaction | src/client/block/TransportFabricBlockParser.ts:84-88 | the envelope's transaction with the given validation code; an envelope without a transaction throws |
| BlockParser.EventsOf | src/client/block/TransportFabricBlockParser.ts:164-176 | no events without a channel header |
| BlockParser.EventsOfActionsHeader | src/client/block/TransportFabricBlockParser.ts:178-190 | every event of an entry carries the entry's channel and hash and a non-empty name |
| BlockParser.ParseEventBlockData | src/client/block/TransportFabricBlockParser.ts:164-176 | the action loop computes `EventsOf` |
| BlockParser.EventsOfActionsFails | src/client/block/TransportFabricBlockParser.ts:170-174 | the first action that throws makes the whole decoding throw its error |
| BlockParser.Parse | src/client/block/TransportFabricBlockParser.ts:54-82 | the entry loop computes `BlockOf`; a block without entries gives nothing; the hash and number are kept |
| BlockParser.ScanStops | src/client/block/TransportFabricBlockParser.ts:69-79 | an entry that throws makes the scan throw that error however many entries follow |
| BlockParser.Origins | src/client/block/TransportFabricBlockParser.ts:69-74 | the indices of the entries that hold a transaction, strictly increasing and complete |
| BlockParser.ScanAligned | src/client/block/TransportFabricBlockParser.ts:66-74 | the k-th decoded transaction is the one at entry `Origins[k]` and carries the validation code at that same index; skipped entries do not shift later codes |
| BlockParserBatch.FindBatch | src/client/batch/block/TransportFabricBlockParserBatch.ts:21-23 | the first transaction whose request names the batch command; none exactly when there is none |
| BlockParserBatch.Downgrade | src/client/batch/block/TransportFabricBlockParserBatch.ts:61-63 | VALID becomes INVALID_OTHER_REASON exactly when the response is an error; other codes are kept |
| BlockParserBatch.ResolveCommand | src/client/batch/block/TransportFabricBlockParserBatch.ts:54-63 | a batch command is the fetched transaction with the block it was mined in, its recorded response and the downgraded code |
| BlockParserBatch.ResolveAll | src/client/batch/block/TransportFabricBlockParserBatch.ts:53-65 | one transaction per recorded response, in order, each carrying that response and a mined block, and none VALID with an error response |
| BlockParserBatch.Parse | src/client/batch/block/TransportFabricBlockParserBatch.ts:40-68 | the parse computes `BatchBlockOf` |
| BlockParserBatch.ResolveCommands | src/client/batch/block/TransportFabricBlockParserBatch.ts:53-65 | the loop computes `ResolveAll` |
| BlockParserBatch.ResolveAllStops | src/client/batch/block/TransportFabricBlockParserBatch.ts:53-65 | the first command that cannot be fetched makes the whole parse fail with its error |
| BlockParserBatch.BatchBlockShape | src/client/batch/block/TransportFabricBlockParserBatch.ts:44-65 | a non-batch block has no events or transactions; a batch block has the batch transaction first, then one transaction per recorded response carrying it, none VALID with an error |
| Sender.ParseError | src/client/TransportFabricSender.ts:50-62 | an error is found exactly when the message, prefix dropped and trimmed, is JSON carrying an error; its stack is cleared |
| Sender.ParseChaincodeError | src/client/TransportFabricSender.ts:36-48 | the error of the first response, else the first endorsement; the generic error when that item carries none; the original error when there is no item |
| Sender.ResponsesFirst | src/client/TransportFabricSender.ts:39-43 | the endorsements are not read when there is a response |
| Sender.ParseTransactionError | src/client/TransportFabricSender.ts:238 | a transport error is kept as it is |
| Sender.ParseErrorRoundTrip | src/client/TransportFabricSender.ts:50-62 | the error a chaincode puts in its response envelope comes back out of Fabric's failure message, without its stack |
| Sender.CreateRequestOptionsAsWritten | src/client/TransportFabricSender.ts:309-329 | an envelope for a command that needs no reply never validates; one that needs a reply validates exactly when the options do |
| Sender.CreateRequestOptions | src/client/TransportFabricSender.ts:309-329 | the envelope validates exactly when the options do; it carries the id, name and reply flag, a request only when the command has one, and a readonly flag exactly when the command is readonly |
| Sender.RequestArrives | src/client/TransportFabricSender.ts:309-329 | the argument the client submits parses on the chaincode side into the envelope it built |
| Sender.NoReplySendRefused | src/client/TransportFabricSender.ts:324-327 | a command sent without a reply: the envelope as written is refused, the corrected one accepted |
| Sender.CommandTimeoutDelay | src/client/TransportFabricSender.ts:261-266 | the default timeout without options or a timeout in them; otherwise the base transport's delay |
| Sender.ResponseRoundTrip | src/client/TransportFabricSender.ts:281-289 | a reply decodes into the envelope the chaincode encoded, unless its data has an error's shape |
| Sender.ClearStack | src/client/TransportFabricSender.ts:294-297 | an error reply loses only its stack; data is kept |
| Sender.Processed | src/client/TransportFabricSender.ts:300 | the processed command stops waiting and nothing is sent |
| Sender.Receive | src/client/TransportFabricSender.ts:274-301 | an unknown id is ignored; a waiting command stops waiting and receives the decoded reply with its stack cleared |
| Sender.DeliveredPromises | src/client/batch/TransportFabricSenderBatch.ts:62-65 | after a flush is delivered exactly the commands it answered stop waiting, only waiting commands receive a result, earlier results are kept, and nothing is sent |
| Sender.SendSubmits | src/client/TransportFabricSender.ts:229-235 | with the corrected envelope of the Findings table, exactly one transaction is sent, evaluated exactly when the command is readonly, carrying the stringified envelope |
| Sender.InlineReply | src/client/TransportFabricSender.ts:220-223 | a listened command whose transaction returns the chaincode's reply receives that reply and stops waiting |
| Sender.WithDefaults | src/client/TransportFabricSender.ts:101-109 | a missing reconnect delay becomes 1000, missing max attempts 0, a missing exit flag true; set values are kept |
| Sender.ReconnectOutcome | src/client/TransportFabricSender.ts:411-428 | the loop stops on the first success, or on a failure once the count exceeds the maximum; every earlier try failed |
| Sender.ReconnectGivesUp | src/client/TransportFabricSender.ts:420 | a connection that always fails is tried `max + 1` times (at least once); with the default of 0 the first failure is final |
| Sender.Sender.constructor | src/client/TransportFabricSender.ts:85-89 | a new client is not connected, has made no attempt and has no waiting command |
| Sender.Sender.Connect | src/client/TransportFabricSender.ts:97-120 | nil settings throw; defaults are filled in; a kept connection is returned; otherwise the count restarts and the reconnect loop decides whether the client is connected or gives up, exiting when so configured |
| Sender.Sender.Reconnect | src/client/TransportFabricSender.ts:411-428 | the loop ends in the state `ReconnectOutcome` predicts, connected with listeners or disconnected |
| Sender.Sender.Disconnect | src/client/TransportFabricSender.ts:122-149 | the connection promise and listeners are dropped and the client is not connected; the process exits when so configured; nil settings throw |
| Sender.Sender.Destroy | src/client/TransportFabricSender.ts:195-203 | a second call does nothing; the first marks the client destroyed and disconnects, throwing the null-reference error exactly when the settings are nil |
| Sender.Sender.ResponseMessageReceived | src/client/TransportFabricSender.ts:274-301 | the table changes as `Receive` states |
| Sender.Sender.ParseTransactionFailure | src/client/TransportFabricSender.ts:237-245 | an async command receives the extracted error and stops waiting; any other command is left alone |
| Sender.Sender.RequestSend | src/client/TransportFabricSender.ts:211-227 | a client that is not connected throws "transport is not connected" and changes nothing; otherwise the envelope is sent and its outcome handled |
| Sender.Sender.SendConnected | src/client/TransportFabricSender.ts:216-226 | the table changes as `SendEffect` states: a refused envelope goes to the failure path, otherwise exactly one submission is recorded before the outcome is handled |
| Sender.Sender.HandleOutcome | src/client/TransportFabricSender.ts:220-226 | a returned reply is read inline only for an async command needing one (and never for a queued batch command); a failure goes to `parseTransactionError` |
| Sender.Sender.Send | src/client/TransportFabricSender.ts:161-163 | the command is sent without a reply being awaited |
| Sender.Sender.SendListen | src/client/TransportFabricSender.ts:165-177 | a command already waiting is not sent again; otherwise it enters the table and is sent with a reply requested |
| Sender.Sender.DeliverAll | src/client/batch/TransportFabricSenderBatch.ts:62-65 | each recorded response of a flush is delivered in turn under its own id |
| Sender.Sender.BlockEventCallback | src/client/batch/TransportFabricSenderBatch.ts:44-66 | an error or the base client does nothing; the first block only clears the flag; a later batch block delivers each recorded response, any other block nothing; nothing is sent |
| SenderFactory.SenderFactory.constructor | src/client/factory/TransportFabricSenderFactory.ts:21-24 | a new factory caches no client |
| SenderFactory.SenderFactory.Get | src/client/factory/TransportFabricSenderFactory.ts:32-42 | a new uid gets a new base client; a connected cached client is returned as it is; a client that is not connected is connected first, so nil settings fail and otherwise the call succeeds exactly when the reconnect tries succeed; a success returns the connected client; entries are never removed or replaced and other clients are unchanged |

## Left out

- **Fabric SDK and network I/O.** These are outcomes given as parameters:
  - the Fabric SDK (`FabricApiClient`);
  - block and contract listener registration;
  - `transaction.submit`/`evaluate`;
  - `api.getTransaction`, `api.getBlockByTxID` and `api.connect`.

  `process.exit` is the flag `exited`.
- **The base `Transport` class of `@ts-core/common`:**
  - Expiry, the wait limit and the default command timeout are given functions of an explicit clock.
  - `commandTimeout` and its timers are not modelled.
  - `commandProcessed` is taken as removing the command from the table after its result is recorded.
- **Logging** (`logCommand`, `warn`, `error`, `console.log`) is not modelled.
- **JSON text, class transformation and class validation** are given functions. The validator's message texts are not modelled.
- **`TransportFabricResponsePayload.ts` is not part of this model.** `Sender.ResponseFromJson` assumes it reads an `id` string and a `response` that is an error when shaped like one.
- **`TransportFabricRequestPayload.clear` and `clearDefaultOptions`** are not defined in the files of this model. They are treated as leaving the envelope and options unchanged.
- **`checkEventsCode`, `TransportFabricChaincodeCommandWrapper` and the constants file** are not part of this model.
  - Destroying a command is taken as destroying its stub.
  - The constants' spelled-out values are stand-ins.
- **Version skew between the files is not reconciled.** Examples are the batch `executeCommand`'s four parameters and the argument order of `checkRequestStorage` and `createCommand`. Each method's logic is modelled as written.
- **Floating point and `Date`.**
  - Times are integer milliseconds.
  - `Math.round(nanos * ...)` in `transactionDate` is not modelled.
  - `Date.now()` is a parameter.
- **Async and concurrency.** Every `await` is sequential, and `Promise.all` in `removeKV` is a loop in order. Settling a promise is recorded by ticket; nothing observes it asynchronously.
- Sender.Sender.Reconnect: the delay between tries is not modelled. The loop runs its tries in one call.
- Sender.Sender.Reconnect: error wrapping with the timeout code (`ExtendedError.create(error, code)`) is not modelled.
- Sender.Sender.BlockEventCallback: a nil block is not modelled; a block is always given.
- **The batch decoder's `destroy`** only drops its API reference and is not modelled.
- **`contractEventCallback` and `blockEventCallback` of the base client** only log. The modelled part is that they change nothing.
- **`_dispatch` to local observers** is not modelled.
- **Event names that are not strings are treated as empty.** lodash `isEmpty` on an object or number differs from this.
- **JSON objects keep their members in text order.** The `for ... in` order of integer-like keys is not modelled, and neither are duplicate keys.
- **Nil `metadata` on a block**, which throws in the decoder, is not modelled. Metadata that is not an array gives no validation codes.
- **A nil action payload in `parseEventBlockAction`** is modelled as an error, where JavaScript throws a `TypeError`.
- **The batch decoder on a block without entries** is modelled as the `TypeError` of `getBatchTransaction(undefined)`.
- **Listeners.** A listener is modelled as a fixed script of stub steps, waits and one result. Listeners that never complete, or that complete asynchronously later, are modelled only as stopping at a failed step or wait.
- Receiver.TransportReceiver.ExecuteQueued: a read-back payload is checked like a received one (string `id` and `name`, an options object, a boolean `isNeedReply`). `TransformUtil.toClass` only converts and never validates. An entry that fails the check therefore yields the check's error instead of failing later in `createCommand` or in its listener.
- Receiver.TransportReceiver.RunQueue: for an entry read back as a payload, the result is stated as the outcome of some settled promise, not of that entry's own ticket (`ExecuteQueued` states the ticket). That the promise of the entry it stops at is still pending is likewise stated only in `ExecuteQueued`.
- Receiver.TransportReceiver.ExecuteBatch: the same as for `RunQueue`.
- Receiver.TransportReceiver.RunScript: the settlement a listener produces is stated only through `Complete` and `Wait`.
- Sender.SendEffect: builds the envelope with the corrected `CreateRequestOptions` (see Findings), so a send that needs no reply validates and is submitted. As written, that envelope fails validation. `parseTransactionError` then returns early for a command that is not async, so nothing is submitted and the table is unchanged.
- Sender.Sender.SendConnected: follows `SendEffect`, so the corrected envelope applies.
- Sender.Sender.RequestSend: follows `SendEffect`, so the corrected envelope applies.
- Sender.Sender.Send: follows `SendEffect`. As written, `send` of a command without a reply submits nothing.
- Wrapper.StubWrapper.LoadKV: the wrapper calls `super.loadKV(iterator)` (TransportFabricStubWrapper.ts:63), but the base `TransportFabricStub` in these files defines no `loadKV`; only the interface declares it (ITransportFabricStub.ts:17). The model takes the inherited method to be the drain of `DatabaseManager.loadKV` (DatabaseManager.ts:42-56), so its result rests on that assumption.
- Sender.SendSubmits: proved for the corrected envelope of the Findings table. As written, a send that needs no reply builds an envelope that fails validation, and `parseTransactionError` returns early, so nothing is submitted; `Sender.NoReplySendRefused` states that case.
- Database.DatabaseManager.RemoveKV: what Fabric's `deleteState` does with a null key is outside the source. The model assumes it rejects and writes nothing; the error message "Cannot delete a null key" is a stand-in, not one the source or Fabric defines.
- Database.DatabaseManager.DeleteValues: the same assumption for a null stored value: no delete is issued and the failure is reported.
- BatchKeys.NumberOf: reads only the empty text and optionally signed decimal digits. JavaScript `Number` also accepts surrounding whitespace, a leading `+`, a fraction, an exponent (`1e3`) and hexadecimal (`0x10`). Such times never occur in keys built by `toBatchKey`.

## Findings

| source | as written | input that shows it | evidently intended | confidence | as-written member | corrected member |
|---|---|---|---|---|---|---|
| src/client/TransportFabricSender.ts:324-327 | `isNeedReply` is set only when true, and `@IsBoolean()` without `@IsOptional()` on `isNeedReply` (src/TransportFabricRequestPayload.ts:67-68) rejects a missing value | `send(command)` of a command that is not readonly, so `isNeedReply` is false | the envelope always carries the boolean, so a command sent without a reply validates | not executed; depends on the validator not skipping missing properties | Sender.CreateRequestOptionsAsWritten | Sender.CreateRequestOptions |
