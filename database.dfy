/** `DatabaseManager`: key/value reads over ledger range queries. */
module Database {
  import opened Common
  import opened Strings
  import opened Ledger
  import opened Stub

  /** `DatabaseManager.LAST_KEY`, the character that closes a prefix range. */
  const LAST_KEY: char := '\U{FFF0}'

  /** One entry `loadKV` returns; the value is null when the response had none. */
  datatype KeyValue = KeyValue(key: string, value: Option<string>)

  /** The entries a run of iterator answers contributes: answers without an
      item or without a key are skipped. */
  function Items(rs: seq<IterResponse>): seq<KeyValue>
    decreases |rs|
  {
    if |rs| == 0 then []
    else
      var head := rs[0];
      (if head.value.Some? && head.value.value.key.Some?
       then [KeyValue(head.value.value.key.value, head.value.value.value)]
       else []) + Items(rs[1..])
  }

  lemma {:induction false} ItemsAppend(a: seq<IterResponse>, b: seq<IterResponse>)
    ensures Items(a + b) == Items(a) + Items(b)
    decreases |a|
  {
    if |a| == 0 {
      assert a + b == b;
    } else {
      assert (a + b)[0] == a[0];
      assert (a + b)[1..] == a[1..] + b;
      ItemsAppend(a[1..], b);
    }
  }

  /** Every entry comes from an answer with that key and value, and the
      entries keep the iterator's order. */
  lemma {:induction false} ItemsFromResponses(rs: seq<IterResponse>, j: nat)
    requires j < |Items(rs)|
    ensures exists i :: 0 <= i < |rs| && rs[i].value == Some(QueryResult(Some(Items(rs)[j].key), Items(rs)[j].value))
    decreases |rs|
  {
    var head := rs[0];
    if head.value.Some? && head.value.value.key.Some? {
      if j > 0 {
        ItemsFromResponses(rs[1..], j - 1);
        var i :| 0 <= i < |rs[1..]| && rs[1..][i].value == Some(QueryResult(Some(Items(rs[1..])[j - 1].key), Items(rs[1..])[j - 1].value));
        assert rs[i + 1] == rs[1..][i];
      } else {
        assert rs[0].value == Some(QueryResult(Some(Items(rs)[0].key), Items(rs)[0].value));
      }
    } else {
      ItemsFromResponses(rs[1..], j);
      var i :| 0 <= i < |rs[1..]| && rs[1..][i].value == Some(QueryResult(Some(Items(rs[1..])[j].key), Items(rs[1..])[j].value));
      assert rs[i + 1] == rs[1..][i];
    }
  }

  /** How many answers `loadKV` reads: up to and including the first one
      marked done, or all of them. */
  function Consumed(rs: seq<IterResponse>): (n: nat)
    ensures n <= |rs|
    ensures forall i :: 0 <= i < n - 1 ==> !rs[i].done
    ensures n < |rs| ==> n > 0 && rs[n - 1].done
    decreases |rs|
  {
    if |rs| == 0 then 0
    else if rs[0].done then 1
    else 1 + Consumed(rs[1..])
  }

  /** What `loadKV` returns on answers `rs`. */
  function Drained(rs: seq<IterResponse>): seq<KeyValue>
  {
    Items(rs[..Consumed(rs)])
  }

  /** Reading stops right after the first answer marked done. */
  lemma {:induction false} ConsumedFirstDone(rs: seq<IterResponse>, k: nat)
    requires k <= |rs|
    requires forall i :: 0 <= i < k ==> !rs[i].done
    requires k < |rs| ==> rs[k].done
    ensures Consumed(rs) == if k < |rs| then k + 1 else |rs|
    decreases k
  {
    if k > 0 {
      ConsumedFirstDone(rs[1..], k - 1);
    }
  }

  /** `loadKV(iterator)`: read answers until one is marked done, keeping the
      entries that have a key; close the iterator once. */
  method LoadKV(it: QueryIterator) returns (items: seq<KeyValue>)
    requires it.Valid()
    modifies it
    ensures it.Valid()
    ensures items == Drained(it.responses[old(it.position)..])
    ensures it.closeCount == old(it.closeCount) + 1
  {
    ghost var start := it.position;
    ghost var rest := it.responses[start..];
    items := [];
    while true
      invariant it.Valid() && start <= it.position
      invariant it.closeCount == old(it.closeCount)
      invariant forall i :: 0 <= i < it.position - start ==> !rest[i].done
      invariant items == Items(rest[..it.position - start])
      decreases |it.responses| - it.position
    {
      ghost var k := it.position - start;
      var response := it.Next();
      if k < |rest| {
        assert rest[..k + 1] == rest[..k] + [rest[k]];
        ItemsAppend(rest[..k], [rest[k]]);
        assert [rest[k]][1..] == [];
      }
      if response.value.Some? && response.value.value.key.Some? {
        items := items + [KeyValue(response.value.value.key.value, response.value.value.value)];
      }
      if response.done {
        it.Close();
        ConsumedFirstDone(rest, k);
        if k == |rest| {
          assert rest[..k] == rest;
        }
        break;
      }
    }
  }

  /** `getFinish(start)`: the end of the range of keys that start with `start`. */
  function GetFinish(start: string): string
  {
    start + [LAST_KEY]
  }

  /** The range `[start, getFinish(start))` holds every key that extends
      `start` by nothing or by a text whose first character is below
      `LAST_KEY`, and nothing below `start`. */
  lemma PrefixInRange(start: string, rest: string)
    requires |rest| == 0 || rest[0] < LAST_KEY
    ensures !LexLess(start + rest, start)
    ensures LexLess(start + rest, GetFinish(start))
  {
    PrefixNotBelow(start, rest);
    PrefixBelowBound(start, rest, LAST_KEY);
  }

  /** The end key `getKV` and `getPaginatedKV` use: the one given, or
      `getFinish(start)` when it is nil. */
  function FinishOf(start: string, finish: Option<string>): string
  {
    if finish.None? then GetFinish(start) else finish.value
  }

  /** The deletes `removeKV` issues for the keys, in entry order. */
  function KeyDeletes(kv: seq<KeyValue>): (ops: seq<StateOp>)
    ensures |ops| == |kv|
    ensures forall i :: 0 <= i < |kv| ==> ops[i] == DeleteOp(kv[i].key)
  {
    seq(|kv|, i requires 0 <= i < |kv| => DeleteOp(kv[i].key))
  }

  /** Deleting one more key of a list appends its delete. */
  lemma KeyDeletesPrefix(kv: seq<KeyValue>, n: nat)
    requires n < |kv|
    ensures KeyDeletes(kv[..n + 1]) == KeyDeletes(kv[..n]) + [DeleteOp(kv[n].key)]
  {
    assert forall i :: 0 <= i < n + 1 ==> KeyDeletes(kv[..n + 1])[i] == (KeyDeletes(kv[..n]) + [DeleteOp(kv[n].key)])[i];
  }

  /** Deleting one more key of the range extends the log by that delete. */
  lemma KeyDeletesStep(base: seq<StateOp>, kv: seq<KeyValue>, n: nat)
    requires n < |kv|
    ensures base + KeyDeletes(kv[..n]) + [DeleteOp(kv[n].key)] == base + KeyDeletes(kv[..n + 1])
  {
    KeyDeletesPrefix(kv, n);
    assert base + KeyDeletes(kv[..n]) + [DeleteOp(kv[n].key)] == base + (KeyDeletes(kv[..n]) + [DeleteOp(kv[n].key)]);
  }

  /** The deletes `removeKV` issues for the stored values that are not null. */
  function ValueDeletes(kv: seq<KeyValue>): seq<StateOp>
    decreases |kv|
  {
    if |kv| == 0 then []
    else (if kv[0].value.Some? then [DeleteOp(kv[0].value.value)] else []) + ValueDeletes(kv[1..])
  }

  lemma ValueDeletesSnoc(kv: seq<KeyValue>, x: KeyValue)
    ensures ValueDeletes(kv + [x]) == ValueDeletes(kv) + (if x.value.Some? then [DeleteOp(x.value.value)] else [])
    decreases |kv|
  {
    if |kv| == 0 {
      assert kv + [x] == [x];
    } else {
      assert (kv + [x])[1..] == kv[1..] + [x];
      ValueDeletesSnoc(kv[1..], x);
    }
  }

  /** One page of `getPaginatedKV`. */
  datatype Page = Page(items: seq<KeyValue>, pageSize: int, pageBookmark: string, isAllLoaded: bool)

  class DatabaseManager {
    const stub: TransportFabricStub

    constructor (stub: TransportFabricStub)
      ensures this.stub == stub
    {
      this.stub := stub;
    }

    /** `getKV(start, finish)`: the entries of the range, in scan order. */
    method GetKV(start: string, finish: Option<string>) returns (r: Result<seq<KeyValue>>)
      ensures r.Err? <==> stub.destroyed
      ensures r.Err? ==> r.error == NullReference("getStateByRange")
      ensures r.Ok? ==> r.value == Drained(stub.ledger.scan(start, FinishOf(start, finish)))
    {
      if stub.Stub() == null {
        return Err(NullReference("getStateByRange"));
      }
      var it := stub.ledger.GetStateByRange(start, FinishOf(start, finish));
      var items := LoadKV(it);
      r := Ok(items);
    }

    /** `removeKV(start, finish)`: delete every key of the range, then every
        key named by a stored value. `deleteState(null)` is taken to reject
        without writing (the message is a stand-in); the other deletes are
        still issued. */
    method RemoveKV(start: string, finish: Option<string>) returns (r: Result<()>)
      requires stub.Valid()
      modifies stub.ledger`writes
      ensures stub.destroyed ==> r.Err? && stub.ledger.writes == old(stub.ledger.writes)
      ensures !stub.destroyed ==>
        var kv := Drained(stub.ledger.scan(start, FinishOf(start, finish)));
        stub.ledger.writes == old(stub.ledger.writes) + KeyDeletes(kv) + ValueDeletes(kv)
        && (r.Ok? <==> forall i :: 0 <= i < |kv| ==> kv[i].value.Some?)
    {
      var got := GetKV(start, finish);
      if got.Err? {
        return Err(got.error);
      }
      var kv := got.value;
      DeleteKeys(kv);
      var failed := DeleteValues(kv);
      r := if failed then Err(Fail("Cannot delete a null key")) else Ok(());
    }

    /** The first loop of `removeKV`: delete every key, in order. */
    method DeleteKeys(kv: seq<KeyValue>)
      requires !stub.destroyed
      modifies stub.ledger`writes
      ensures stub.ledger.writes == old(stub.ledger.writes) + KeyDeletes(kv)
    {
      var i := 0;
      while i < |kv|
        invariant 0 <= i <= |kv|
        invariant stub.ledger.writes == old(stub.ledger.writes) + KeyDeletes(kv[..i])
      {
        var _ := stub.RemoveState(kv[i].key);
        KeyDeletesPrefix(kv, i);
        i := i + 1;
      }
      assert kv[..i] == kv;
    }

    /** The second loop of `removeKV`: delete every key a stored value names;
        a null value is skipped and reported as a failure. */
    method DeleteValues(kv: seq<KeyValue>) returns (failed: bool)
      requires !stub.destroyed
      modifies stub.ledger`writes
      ensures stub.ledger.writes == old(stub.ledger.writes) + ValueDeletes(kv)
      ensures failed <==> exists j :: 0 <= j < |kv| && kv[j].value.None?
    {
      failed := false;
      var i := 0;
      while i < |kv|
        invariant 0 <= i <= |kv|
        invariant stub.ledger.writes == old(stub.ledger.writes) + ValueDeletes(kv[..i])
        invariant failed <==> exists j :: 0 <= j < i && kv[j].value.None?
      {
        ValueDeletesSnoc(kv[..i], kv[i]);
        assert kv[..i + 1] == kv[..i] + [kv[i]];
        if kv[i].value.Some? {
          var _ := stub.RemoveState(kv[i].value.value);
        } else {
          failed := true;
        }
        i := i + 1;
      }
      assert kv[..i] == kv;
    }

    /** `getPaginatedKV(request, start, finish)`. */
    method GetPaginatedKV(pageSize: int, pageBookmark: Option<string>, start: string, finish: Option<string>)
      returns (r: Result<Page>)
      ensures r.Err? <==> stub.destroyed
      ensures r.Ok? ==>
        var answer := stub.ledger.pagedScan(start, FinishOf(start, finish), pageSize, pageBookmark);
        r.value.items == Drained(answer.0) && r.value.pageSize == pageSize
        && r.value.pageBookmark == answer.1.bookmark
        && (r.value.isAllLoaded <==> answer.1.fetchedRecordsCount < pageSize)
    {
      if stub.Stub() == null {
        return Err(NullReference("getStateByRangeWithPagination"));
      }
      var it, metadata := stub.ledger.GetStateByRangeWithPagination(start, FinishOf(start, finish), pageSize, pageBookmark);
      var items := LoadKV(it);
      r := Ok(Page(items, pageSize, metadata.bookmark, metadata.fetchedRecordsCount < pageSize));
    }

    /** `getKeys(start, finish)`: the keys of `getKV`, in order. */
    method GetKeys(start: string, finish: Option<string>) returns (r: Result<seq<string>>)
      ensures r.Err? <==> stub.destroyed
      ensures r.Ok? ==>
        var kv := Drained(stub.ledger.scan(start, FinishOf(start, finish)));
        |r.value| == |kv| && forall i :: 0 <= i < |kv| ==> r.value[i] == kv[i].key
    {
      var got := GetKV(start, finish);
      if got.Err? {
        return Err(got.error);
      }
      var kv := got.value;
      r := Ok(seq(|kv|, i requires 0 <= i < |kv| => kv[i].key));
    }

    /** `getValues(start, finish)`: the values of `getKV`, in order. */
    method GetValues(start: string, finish: Option<string>) returns (r: Result<seq<Option<string>>>)
      ensures r.Err? <==> stub.destroyed
      ensures r.Ok? ==>
        var kv := Drained(stub.ledger.scan(start, FinishOf(start, finish)));
        |r.value| == |kv| && forall i :: 0 <= i < |kv| ==> r.value[i] == kv[i].value
    {
      var got := GetKV(start, finish);
      if got.Err? {
        return Err(got.error);
      }
      var kv := got.value;
      r := Ok(seq(|kv|, i requires 0 <= i < |kv| => kv[i].value));
    }
  }
}
