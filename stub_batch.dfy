/** `TransportFabricStubBatch`: the stub one command of a batch gets. It has
    no chaincode stub of its own and forwards every state and event operation
    to the wrapper the whole batch shares. */
module BatchStub {
  import opened Common
  import opened Ledger
  import opened Payload
  import opened Stub
  import opened Database
  import opened Wrapper

  class StubBatch {
    /** The shared wrapper (`wrapper`) while this stub is alive. */
    const wrapper: StubWrapper
    const requestId: string
    const userId: Option<Json>
    const userPublicKey: Option<Json>
    /** The hash and date handed to the constructor (`_transactionHash`,
        `_transactionDate`). */
    const recordedHash: Option<string>
    const recordedDate: Option<int>
    /** Set by `destroy`, which nulls `wrapper`. */
    var destroyed: bool

    /** `new TransportFabricStubBatch(transactionHash, transactionDate, wrapper, payload)`:
        no chaincode stub, no transport, no event list of its own. */
    constructor (transactionHash: Option<string>, transactionDate: Option<int>, wrapper: StubWrapper, payload: RequestPayload)
      ensures this.wrapper == wrapper && requestId == payload.id
      ensures userId == UserIdOf(Some(payload.options)) && userPublicKey == PublicKeyOf(Some(payload.options))
      ensures recordedHash == transactionHash && recordedDate == transactionDate && !destroyed
    {
      this.wrapper := wrapper;
      requestId := payload.id;
      userId := UserIdOf(Some(payload.options));
      userPublicKey := PublicKeyOf(Some(payload.options));
      recordedHash := transactionHash;
      recordedDate := transactionDate;
      destroyed := false;
    }

    /** `getStateRaw(key)`: the wrapper's answer. */
    method GetStateRaw(key: string) returns (r: Result<Option<string>>)
      requires wrapper.Valid()
      modifies wrapper`state
      ensures wrapper.Valid()
      ensures r.Err? <==> destroyed || wrapper.destroyed
      ensures r.Ok? ==> r.value == old(wrapper.View(key))
      ensures forall k :: wrapper.View(k) == old(wrapper.View(k))
    {
      if destroyed {
        return Err(NullReference("getStateRaw"));
      }
      r := wrapper.GetStateRaw(key);
    }

    /** `putStateRaw(key, item)`: staged in the wrapper. */
    method PutStateRaw(key: string, item: Option<string>) returns (r: Result<()>)
      requires wrapper.Valid()
      modifies wrapper`state, wrapper`keysToRemove
      ensures wrapper.Valid()
      ensures r.Err? <==> destroyed || wrapper.destroyed
      ensures r.Err? ==> unchanged(wrapper)
      ensures r.Ok? ==> wrapper.View(key) == item && forall k :: k != key ==> wrapper.View(k) == old(wrapper.View(k))
    {
      if destroyed {
        return Err(NullReference("putStateRaw"));
      }
      r := wrapper.PutStateRaw(key, item);
    }

    /** `removeState(key)`: staged in the wrapper. */
    method RemoveState(key: string) returns (r: Result<()>)
      requires wrapper.Valid()
      modifies wrapper`state, wrapper`keysToRemove
      ensures wrapper.Valid()
      ensures r.Err? <==> destroyed || wrapper.destroyed
      ensures r.Err? ==> unchanged(wrapper)
      ensures r.Ok? ==> wrapper.View(key) == None && forall k :: k != key ==> wrapper.View(k) == old(wrapper.View(k))
    {
      if destroyed {
        return Err(NullReference("removeState"));
      }
      r := wrapper.RemoveState(key);
    }

    /** `loadKV(iterator)`: the wrapper's. */
    method LoadKV(it: QueryIterator) returns (r: Result<seq<KeyValue>>)
      requires it.Valid()
      modifies it
      ensures it.Valid()
      ensures destroyed ==> r.Err? && unchanged(it)
      ensures !destroyed ==> it.closeCount == old(it.closeCount) + 1
      ensures !destroyed && r.Ok? ==> r.value == NotRemoved(Drained(old(it.responses[it.position..])), wrapper.keysToRemove)
    {
      if destroyed {
        return Err(NullReference("loadKV"));
      }
      r := wrapper.LoadKV(it);
    }

    /** `getStateByRange(start, end)`: the wrapper's. */
    method GetStateByRange(start: string, end: string) returns (r: Result<QueryIterator>)
      ensures r.Err? <==> destroyed || wrapper.destroyed
      ensures r.Ok? ==>
        fresh(r.value) && r.value.Valid() && r.value.responses == wrapper.ledger.scan(start, end)
        && r.value.position == 0 && r.value.closeCount == 0
    {
      if destroyed {
        return Err(NullReference("getStateByRange"));
      }
      r := wrapper.GetStateByRange(start, end);
    }

    /** `getStateByRangeWithPagination(start, end, pageSize, bookmark)`: the wrapper's. */
    method GetStateByRangeWithPagination(start: string, end: string, pageSize: int, bookmark: Option<string>)
      returns (r: Result<(QueryIterator, PageMetadata)>)
      ensures r.Err? <==> destroyed || wrapper.destroyed
      ensures r.Ok? ==>
        fresh(r.value.0) && r.value.0.Valid() && r.value.0.position == 0 && r.value.0.closeCount == 0
        && r.value.0.responses == wrapper.ledger.pagedScan(start, end, pageSize, bookmark).0
        && r.value.1 == wrapper.ledger.pagedScan(start, end, pageSize, bookmark).1
    {
      if destroyed {
        return Err(NullReference("getStateByRangeWithPagination"));
      }
      r := wrapper.GetStateByRangeWithPagination(start, end, pageSize, bookmark);
    }

    /** `dispatch(event, isNeedValidate)`: the wrapper's, which always fails. */
    method Dispatch(event: Event, isNeedValidate: bool, validate: Event -> Option<Error>) returns (r: Result<()>)
      ensures r.Err?
      ensures !destroyed && isNeedValidate && validate(event).Some? ==> r.error == validate(event).value
    {
      if destroyed {
        return Err(NullReference("dispatch"));
      }
      r := wrapper.Dispatch(event, isNeedValidate, validate);
    }

    /** `destroy()`: drops the wrapper; the overridden `dispatchEvents` emits
        nothing, so the chaincode stub sees no event. */
    method Destroy()
      modifies this`destroyed
      ensures destroyed
    {
      destroyed := true;
    }

    /** The `transactionHash` getter: it reads this stub's own chaincode stub,
        which is null, so the recorded hash is never returned. */
    function TransactionHash(): (r: Option<string>)
      ensures r.None?
    {
      None
    }

    /** The `transactionDate` getter, null for the same reason. */
    function TransactionDate(): (r: Option<int>)
      ensures r.None?
    {
      None
    }
  }

  /** Two commands of one batch share the wrapper: what one stages, the other
      reads. */
  method SharedStaging(first: StubBatch, second: StubBatch, key: string, item: string) returns (r: Result<Option<string>>)
    requires first.wrapper == second.wrapper && first.wrapper.Valid()
    requires !first.destroyed && !second.destroyed && !first.wrapper.destroyed
    modifies first.wrapper
    ensures r == Ok(Some(item))
  {
    var written := first.PutStateRaw(key, Some(item));
    r := second.GetStateRaw(key);
  }
}
