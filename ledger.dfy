/** The part of Hyperledger Fabric's chaincode stub the transport talks to.
    A transaction reads the committed world state as it was when the
    transaction started (there is no read-your-writes), records its writes in
    a write set, and may set an event. Range scans are answered by the peer
    and are taken as given. */
module Ledger {
  import opened Common

  /** One entry of a transaction's write set. */
  datatype StateOp = PutOp(key: string, value: string) | DeleteOp(key: string)

  /** One item of a state query: the key and the value bytes, either of which
      may be missing. */
  datatype QueryResult = QueryResult(key: Option<string>, value: Option<string>)

  /** One answer of `iterator.next()`. */
  datatype IterResponse = IterResponse(value: Option<QueryResult>, done: bool)

  /** The metadata of a paginated range query. */
  datatype PageMetadata = PageMetadata(fetchedRecordsCount: int, bookmark: string)

  /** The world state once a write set is committed: later writes win. */
  function Apply(world: map<string, string>, ops: seq<StateOp>): map<string, string>
    decreases |ops|
  {
    if |ops| == 0 then world
    else
      var next := match ops[0]
        case PutOp(k, v) => world[k := v]
        case DeleteOp(k) => world - {k};
      Apply(next, ops[1..])
  }

  /** Committing two write sets one after the other is committing both. */
  lemma {:induction false} ApplyAppend(world: map<string, string>, a: seq<StateOp>, b: seq<StateOp>)
    ensures Apply(world, a + b) == Apply(Apply(world, a), b)
    decreases |a|
  {
    if |a| > 0 {
      assert (a + b)[0] == a[0];
      assert (a + b)[1..] == a[1..] + b;
      var next := match a[0]
        case PutOp(k, v) => world[k := v]
        case DeleteOp(k) => world - {k};
      ApplyAppend(next, a[1..], b);
    } else {
      assert a + b == b;
    }
  }

  /** The keys a write set touches. */
  function OpKeys(ops: seq<StateOp>): set<string>
    decreases |ops|
  {
    if |ops| == 0 then {} else {ops[0].key} + OpKeys(ops[1..])
  }

  /** A write set made only of deletes removes exactly its keys and leaves
      every other value as it was. */
  lemma {:induction false} ApplyDeletes(world: map<string, string>, ops: seq<StateOp>)
    requires forall i :: 0 <= i < |ops| ==> ops[i].DeleteOp?
    ensures Apply(world, ops).Keys == world.Keys - OpKeys(ops)
    ensures forall k :: k in Apply(world, ops) ==> Apply(world, ops)[k] == world[k]
    decreases |ops|
  {
    if |ops| > 0 {
      ApplyDeletes(world - {ops[0].key}, ops[1..]);
    }
  }

  /** A state query iterator over answers the peer has already decided. */
  class QueryIterator {
    const responses: seq<IterResponse>
    var position: nat
    var closeCount: nat

    ghost predicate Valid()
      reads this
    {
      position <= |responses|
    }

    constructor (responses: seq<IterResponse>)
      ensures Valid() && this.responses == responses && position == 0 && closeCount == 0
    {
      this.responses := responses;
      position := 0;
      closeCount := 0;
    }

    /** `iterator.next()`: the next answer; once they are used up, an empty
        answer marked done. */
    method Next() returns (r: IterResponse)
      requires Valid()
      modifies this`position
      ensures Valid()
      ensures old(position) < |responses| ==> r == responses[old(position)] && position == old(position) + 1
      ensures old(position) >= |responses| ==> r == IterResponse(None, true) && position == old(position)
    {
      if position < |responses| {
        r := responses[position];
        position := position + 1;
      } else {
        r := IterResponse(None, true);
      }
    }

    /** `iterator.close()`. */
    method Close()
      modifies this`closeCount
      ensures closeCount == old(closeCount) + 1
    {
      closeCount := closeCount + 1;
    }
  }

  /** The chaincode stub of one transaction. */
  class ChaincodeStub {
    /** The committed world state the transaction reads. */
    const world: map<string, string>
    /** `getTxID()` and the transaction time in milliseconds, if the
        timestamp can be read. */
    const txId: string
    const txTime: Option<int>
    /** `getFunctionAndParameters()`. */
    const fcn: string
    const params: seq<string>
    /** The peer's answers to range queries. */
    const scan: (string, string) -> seq<IterResponse>
    const pagedScan: (string, string, int, Option<string>) -> (seq<IterResponse>, PageMetadata)
    /** What the transaction has written and the events it has set. */
    var writes: seq<StateOp>
    var events: seq<(string, string)>

    constructor (world: map<string, string>, txId: string, txTime: Option<int>, fcn: string, params: seq<string>,
                 scan: (string, string) -> seq<IterResponse>,
                 pagedScan: (string, string, int, Option<string>) -> (seq<IterResponse>, PageMetadata))
      ensures this.world == world && this.txId == txId && this.txTime == txTime
      ensures this.fcn == fcn && this.params == params && this.scan == scan && this.pagedScan == pagedScan
      ensures writes == [] && events == []
    {
      this.world := world;
      this.txId := txId;
      this.txTime := txTime;
      this.fcn := fcn;
      this.params := params;
      this.scan := scan;
      this.pagedScan := pagedScan;
      writes := [];
      events := [];
    }

    /** `getState(key)`: the committed bytes, empty when the key is absent. */
    function GetState(key: string): string
    {
      if key in world then world[key] else ""
    }

    /** `putState(key, value)`. */
    method PutState(key: string, value: string)
      modifies this`writes
      ensures writes == old(writes) + [PutOp(key, value)]
    {
      writes := writes + [PutOp(key, value)];
    }

    /** `deleteState(key)`. */
    method DeleteState(key: string)
      modifies this`writes
      ensures writes == old(writes) + [DeleteOp(key)]
    {
      writes := writes + [DeleteOp(key)];
    }

    /** `setEvent(name, payload)`: every call is recorded in order (Fabric
        itself keeps only the last event of a transaction). */
    method SetEvent(name: string, payload: string)
      modifies this`events
      ensures events == old(events) + [(name, payload)]
    {
      events := events + [(name, payload)];
    }

    /** `getStateByRange(start, end)`. */
    method GetStateByRange(start: string, end: string) returns (it: QueryIterator)
      ensures fresh(it) && it.Valid() && it.responses == scan(start, end) && it.position == 0 && it.closeCount == 0
    {
      it := new QueryIterator(scan(start, end));
    }

    /** `getStateByRangeWithPagination(start, end, pageSize, bookmark)`. */
    method GetStateByRangeWithPagination(start: string, end: string, pageSize: int, bookmark: Option<string>)
      returns (it: QueryIterator, metadata: PageMetadata)
      ensures fresh(it) && it.Valid() && it.responses == pagedScan(start, end, pageSize, bookmark).0
      ensures it.position == 0 && it.closeCount == 0
      ensures metadata == pagedScan(start, end, pageSize, bookmark).1
    {
      var answer := pagedScan(start, end, pageSize, bookmark);
      it := new QueryIterator(answer.0);
      metadata := answer.1;
    }
  }
}
