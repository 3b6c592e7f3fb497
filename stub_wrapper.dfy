/** `TransportFabricStubWrapper`: the buffer a batch of commands shares. Reads
    go through to the chaincode stub once and are cached; writes and removals
    are staged and reach the chaincode stub only when `commitToState` runs. */
module Wrapper {
  import opened Common
  import opened Ledger
  import opened Stub
  import opened Database

  /** Whether a sequence holds no value twice. */
  predicate Distinct<T(==)>(s: seq<T>)
    decreases |s|
  {
    |s| == 0 || (s[0] !in s[1..] && Distinct(s[1..]))
  }

  /** Appending a value the sequence lacks keeps it free of repeats. */
  lemma {:induction false} DistinctSnoc<T>(s: seq<T>, x: T)
    requires Distinct(s) && x !in s
    ensures Distinct(s + [x])
    decreases |s|
  {
    if |s| > 0 {
      assert (s + [x])[1..] == s[1..] + [x];
      DistinctSnoc(s[1..], x);
    }
  }

  /** `s` without any occurrence of `x` (`ArrayUtil.remove`). */
  function Without(s: seq<string>, x: string): (r: seq<string>)
    ensures forall y :: y in r <==> y in s && y != x
    ensures Distinct(s) ==> Distinct(r)
    decreases |s|
  {
    if |s| == 0 then []
    else if s[0] == x then Without(s[1..], x)
    else [s[0]] + Without(s[1..], x)
  }

  /** A JavaScript `Map<string, string>` whose values may be null, as its
      entries in insertion order. */
  type Entries = seq<(string, Option<string>)>

  /** `map.keys()`, in insertion order. */
  function KeysOf(e: Entries): (ks: seq<string>)
    ensures |ks| == |e|
    decreases |e|
  {
    if |e| == 0 then [] else [e[0].0] + KeysOf(e[1..])
  }

  /** `map.has(key) ? map.get(key) : undefined`. */
  function Find(e: Entries, key: string): (r: Option<Option<string>>)
    ensures r.Some? <==> key in KeysOf(e)
    ensures r.Some? && AllSet(e) ==> r.value.Some?
    decreases |e|
  {
    if |e| == 0 then None
    else if e[0].0 == key then Some(e[0].1)
    else
      assert AllSet(e) ==> AllSet(e[1..]);
      Find(e[1..], key)
  }

  /** `map.set(key, value)`: a present key keeps its place, a new one goes
      last. */
  function Put(e: Entries, key: string, value: Option<string>): (r: Entries)
    ensures KeysOf(r) == if key in KeysOf(e) then KeysOf(e) else KeysOf(e) + [key]
    decreases |e|
  {
    if |e| == 0 then [(key, value)]
    else if e[0].0 == key then [(key, value)] + e[1..]
    else
      var r := [e[0]] + Put(e[1..], key, value);
      assert r[1..] == Put(e[1..], key, value);
      r
  }

  /** After `map.set(key, value)` the map holds `value` at `key` and nothing
      else changes. */
  lemma {:induction false} FindPut(e: Entries, key: string, value: Option<string>, k: string)
    ensures Find(Put(e, key, value), k) == if k == key then Some(value) else Find(e, k)
    decreases |e|
  {
    if |e| > 0 && e[0].0 != key {
      var r := Put(e, key, value);
      assert r[0] == e[0] && r[1..] == Put(e[1..], key, value);
      FindPut(e[1..], key, value, k);
    }
  }

  /** `map.delete(key)`: only `key` goes, the others keep their order. */
  function Drop(e: Entries, key: string): (r: Entries)
    ensures KeysOf(r) == Without(KeysOf(e), key)
    decreases |e|
  {
    if |e| == 0 then []
    else if e[0].0 == key then Drop(e[1..], key)
    else
      var r := [e[0]] + Drop(e[1..], key);
      assert r[1..] == Drop(e[1..], key);
      r
  }

  /** After `map.delete(key)` the map lacks `key` and nothing else changes. */
  lemma {:induction false} FindDrop(e: Entries, key: string, k: string)
    ensures Find(Drop(e, key), k) == if k == key then None else Find(e, k)
    decreases |e|
  {
    if |e| > 0 {
      FindDrop(e[1..], key, k);
      if e[0].0 != key {
        var r := Drop(e, key);
        assert r[0] == e[0] && r[1..] == Drop(e[1..], key);
      }
    }
  }

  /** Buffering a value and un-staging its removal keep the staged keys and
      the buffered keys free of repeats and apart from each other. */
  lemma PutKeepsBuffers(keys: seq<string>, e: Entries, key: string, value: Option<string>)
    requires Distinct(keys) && Distinct(KeysOf(e)) && forall k :: k in keys ==> Find(e, k).None?
    ensures Distinct(Without(keys, key)) && Distinct(KeysOf(Put(e, key, value)))
    ensures forall k :: k in Without(keys, key) ==> Find(Put(e, key, value), k).None?
  {
    if key !in KeysOf(e) {
      DistinctSnoc(KeysOf(e), key);
    }
    forall k | k in Without(keys, key)
      ensures Find(Put(e, key, value), k).None?
    {
      FindPut(e, key, value, k);
    }
  }

  /** Whether no entry holds null. */
  predicate AllSet(e: Entries)
  {
    forall i :: 0 <= i < |e| ==> e[i].1.Some?
  }

  /** The deletes `commitToState` issues, one per staged removal. */
  function Deletes(keys: seq<string>): (ops: seq<StateOp>)
    ensures |ops| == |keys| && forall i :: 0 <= i < |keys| ==> ops[i] == DeleteOp(keys[i])
  {
    seq(|keys|, i requires 0 <= i < |keys| => DeleteOp(keys[i]))
  }

  /** The writes `commitToState` issues, in map order, up to the first null
      value, on which `Buffer.from` throws. */
  function Puts(e: Entries): (ops: seq<StateOp>)
    ensures AllSet(e) ==> |ops| == |e|
    decreases |e|
  {
    if |e| == 0 || e[0].1.None? then []
    else [PutOp(e[0].0, e[0].1.value)] + Puts(e[1..])
  }

  lemma {:induction false} PutsSnoc(e: Entries, x: (string, Option<string>))
    requires AllSet(e) && x.1.Some?
    ensures Puts(e + [x]) == Puts(e) + [PutOp(x.0, x.1.value)]
    decreases |e|
  {
    if |e| == 0 {
      assert e + [x] == [x];
    } else {
      assert (e + [x])[0] == e[0];
      assert (e + [x])[1..] == e[1..] + [x];
      PutsSnoc(e[1..], x);
    }
  }

  /** The write set of a `commitToState` over staged removals and values. */
  function CommitOps(keysToRemove: seq<string>, state: Entries): seq<StateOp>
  {
    Deletes(keysToRemove) + Puts(state)
  }

  lemma {:induction false} OpKeysOfDeletes(keys: seq<string>)
    ensures OpKeys(Deletes(keys)) == set k | k in keys
    decreases |keys|
  {
    if |keys| > 0 {
      assert Deletes(keys)[1..] == Deletes(keys[1..]);
      OpKeysOfDeletes(keys[1..]);
      assert keys == [keys[0]] + keys[1..];
    }
  }

  /** Writing the values of a map with distinct keys and no null value: each
      of its keys ends with its value, every other key is left as it was. */
  lemma {:induction false} ApplyPuts(m: map<string, string>, e: Entries)
    requires Distinct(KeysOf(e)) && AllSet(e)
    ensures forall k :: Find(e, k).Some? ==> k in Apply(m, Puts(e)) && Find(e, k).value == Some(Apply(m, Puts(e))[k])
    ensures forall k :: Find(e, k).None? ==>
      (k in Apply(m, Puts(e)) <==> k in m) && (k in m ==> Apply(m, Puts(e))[k] == m[k])
    decreases |e|
  {
    if |e| > 0 {
      var v := e[0].1.value;
      assert Puts(e)[0] == PutOp(e[0].0, v);
      assert Puts(e)[1..] == Puts(e[1..]);
      ApplyPuts(m[e[0].0 := v], e[1..]);
    }
  }

  /** What a successful `commitToState` leaves in the world state: staged
      removals are gone, staged values are written, every other key keeps its
      committed value. */
  lemma CommitEffect(world: map<string, string>, keysToRemove: seq<string>, state: Entries)
    requires Distinct(KeysOf(state)) && AllSet(state)
    requires forall k :: k in keysToRemove ==> Find(state, k).None?
    ensures var after := Apply(world, CommitOps(keysToRemove, state));
      (forall k :: k in keysToRemove ==> k !in after)
      && (forall k :: Find(state, k).Some? ==> k in after && Find(state, k).value == Some(after[k]))
      && (forall k :: k !in keysToRemove && Find(state, k).None? ==>
            (k in after <==> k in world) && (k in world ==> after[k] == world[k]))
  {
    ApplyAppend(world, Deletes(keysToRemove), Puts(state));
    ApplyDeletes(world, Deletes(keysToRemove));
    OpKeysOfDeletes(keysToRemove);
    ApplyPuts(Apply(world, Deletes(keysToRemove)), state);
  }

  class StubWrapper {
    /** The chaincode stub of the batch transaction. */
    const ledger: ChaincodeStub
    /** The buffered values (`state`), in insertion order. */
    var state: Entries
    /** The keys staged for removal (`keysToRemove`), in staging order. */
    var keysToRemove: seq<string>
    /** Set by `destroy`, which nulls `state` and `keysToRemove`. */
    var destroyed: bool

    /** Staged removals have no buffered value, and neither list repeats a key. */
    ghost predicate Valid()
      reads this
    {
      Distinct(keysToRemove) && Distinct(KeysOf(state))
      && forall k :: k in keysToRemove ==> Find(state, k).None?
    }

    /** `new TransportFabricStubWrapper(stub)`. */
    constructor (ledger: ChaincodeStub)
      ensures Valid() && this.ledger == ledger && state == [] && keysToRemove == [] && !destroyed
    {
      this.ledger := ledger;
      state := [];
      keysToRemove := [];
      destroyed := false;
    }

    /** `isKeyRemoved(key)`. */
    predicate IsKeyRemoved(key: string)
      reads this
    {
      key in keysToRemove
    }

    /** What `getStateRaw(key)` answers in the current state. */
    function View(key: string): Option<string>
      reads this
    {
      if IsKeyRemoved(key) then None
      else match Find(state, key)
        case Some(v) => v
        case None => RawValue(ledger.GetState(key))
    }

    /** `getStateRaw(key)`: null for a staged removal, the buffered value for
        a key in `state`, otherwise the chaincode stub's value, cached. The
        answer of every key stays what it was. */
    method GetStateRaw(key: string) returns (r: Result<Option<string>>)
      requires Valid()
      modifies this`state
      ensures Valid()
      ensures r.Err? <==> destroyed
      ensures r.Ok? ==> r.value == old(View(key))
      ensures forall k :: View(k) == old(View(k))
      ensures destroyed || IsKeyRemoved(key) || Find(old(state), key).Some? ==> state == old(state)
      ensures !destroyed && !IsKeyRemoved(key) && Find(old(state), key).None? ==>
        state == Put(old(state), key, RawValue(ledger.GetState(key)))
    {
      if destroyed {
        return Err(NullReference("includes"));
      }
      if IsKeyRemoved(key) {
        return Ok(None);
      }
      var cached := Find(state, key);
      if cached.Some? {
        return Ok(cached.value);
      }
      var item := RawValue(ledger.GetState(key));
      DistinctSnoc(KeysOf(state), key);
      forall k
        ensures Find(Put(state, key, item), k) == if k == key then Some(item) else Find(state, k)
      {
        FindPut(state, key, item, k);
      }
      state := Put(state, key, item);
      r := Ok(item);
    }

    /** `putStateRaw(key, item)`: un-stage a removal of `key` and buffer the
        value; the chaincode stub is not written. */
    method PutStateRaw(key: string, item: Option<string>) returns (r: Result<()>)
      requires Valid()
      modifies this`state, this`keysToRemove
      ensures Valid()
      ensures r.Err? <==> destroyed
      ensures r.Err? ==> state == old(state) && keysToRemove == old(keysToRemove)
      ensures r.Ok? ==> keysToRemove == Without(old(keysToRemove), key) && state == Put(old(state), key, item)
      ensures r.Ok? ==> View(key) == item && forall k :: k != key ==> View(k) == old(View(k))
    {
      if destroyed {
        return Err(NullReference("includes"));
      }
      PutKeepsBuffers(keysToRemove, state, key, item);
      keysToRemove := Without(keysToRemove, key);
      state := Put(state, key, item);
      forall k | k != key
        ensures View(k) == old(View(k))
      {
        FindPut(old(state), key, item, k);
      }
      FindPut(old(state), key, item, key);
      r := Ok(());
    }

    /** `removeState(key)`: stage the removal once and drop any buffered value. */
    method RemoveState(key: string) returns (r: Result<()>)
      requires Valid()
      modifies this`state, this`keysToRemove
      ensures Valid()
      ensures r.Err? <==> destroyed
      ensures r.Err? ==> state == old(state) && keysToRemove == old(keysToRemove)
      ensures r.Ok? ==> keysToRemove == (if key in old(keysToRemove) then old(keysToRemove) else old(keysToRemove) + [key])
      ensures r.Ok? ==> state == Drop(old(state), key)
      ensures r.Ok? ==> View(key) == None && forall k :: k != key ==> View(k) == old(View(k))
    {
      if destroyed {
        return Err(NullReference("includes"));
      }
      if !IsKeyRemoved(key) {
        DistinctSnoc(keysToRemove, key);
        keysToRemove := keysToRemove + [key];
      }
      forall k
        ensures Find(Drop(state, key), k) == if k == key then None else Find(state, k)
      {
        FindDrop(state, key, k);
      }
      state := Drop(state, key);
      r := Ok(());
    }

    /** `loadKV(iterator)`: the drained entries minus staged removals, in
        order; buffered values are not merged in. Once destroyed the filter
        fails on the first entry. */
    method LoadKV(it: QueryIterator) returns (r: Result<seq<KeyValue>>)
      requires it.Valid()
      modifies it
      ensures it.Valid() && it.closeCount == old(it.closeCount) + 1
      ensures r.Err? <==> destroyed && |Drained(old(it.responses[it.position..]))| > 0
      ensures r.Ok? ==> r.value == NotRemoved(Drained(old(it.responses[it.position..])), keysToRemove)
    {
      var items := Database.LoadKV(it);
      if destroyed && |items| > 0 {
        return Err(NullReference("includes"));
      }
      r := Ok(NotRemoved(items, keysToRemove));
    }

    /** `getStateByRange(start, end)`, inherited: the chaincode stub's. */
    method GetStateByRange(start: string, end: string) returns (r: Result<QueryIterator>)
      ensures r.Err? <==> destroyed
      ensures r.Ok? ==>
        fresh(r.value) && r.value.Valid() && r.value.responses == ledger.scan(start, end)
        && r.value.position == 0 && r.value.closeCount == 0
    {
      if destroyed {
        return Err(NullReference("getStateByRange"));
      }
      var it := ledger.GetStateByRange(start, end);
      r := Ok(it);
    }

    /** `getStateByRangeWithPagination(start, end, pageSize, bookmark)`, inherited. */
    method GetStateByRangeWithPagination(start: string, end: string, pageSize: int, bookmark: Option<string>)
      returns (r: Result<(QueryIterator, PageMetadata)>)
      ensures r.Err? <==> destroyed
      ensures r.Ok? ==>
        fresh(r.value.0) && r.value.0.Valid() && r.value.0.position == 0 && r.value.0.closeCount == 0
        && r.value.0.responses == ledger.pagedScan(start, end, pageSize, bookmark).0
        && r.value.1 == ledger.pagedScan(start, end, pageSize, bookmark).1
    {
      if destroyed {
        return Err(NullReference("getStateByRangeWithPagination"));
      }
      var it, metadata := ledger.GetStateByRangeWithPagination(start, end, pageSize, bookmark);
      r := Ok((it, metadata));
    }

    /** `dispatch(event, isNeedValidate)`, inherited: the wrapper is built
        without a transport, so after validation the call on the null
        transport fails and nothing is queued. */
    method Dispatch(event: Event, isNeedValidate: bool, validate: Event -> Option<Error>) returns (r: Result<()>)
      ensures r.Err?
      ensures isNeedValidate && validate(event).Some? ==> r.error == validate(event).value
      ensures !(isNeedValidate && validate(event).Some?) ==> r.error == NullReference("dispatch")
    {
      if isNeedValidate && validate(event).Some? {
        return Err(validate(event).value);
      }
      r := Err(NullReference("dispatch"));
    }

    /** `commitToState()`: every staged removal, then every buffered value in
        map order; on success both buffers are emptied. A null buffered value
        (a cached read of a missing key) makes `Buffer.from` throw, which
        stops the commit there. */
    method CommitToState() returns (r: Result<()>)
      requires Valid()
      modifies this`state, this`keysToRemove, ledger`writes
      ensures Valid()
      ensures destroyed ==> r.Err? && ledger.writes == old(ledger.writes)
      ensures !destroyed ==> ledger.writes == old(ledger.writes) + CommitOps(old(keysToRemove), old(state))
      ensures r.Ok? <==> !destroyed && AllSet(old(state))
      ensures r.Ok? ==> state == [] && keysToRemove == []
      ensures r.Err? ==> state == old(state) && keysToRemove == old(keysToRemove)
    {
      if destroyed {
        return Err(NullReference("includes"));
      }
      DeleteStaged();
      r := WriteBuffered();
      if r.Ok? {
        state := [];
        keysToRemove := [];
      }
    }

    /** The first loop of `commitToState`: every staged removal is deleted
        from the chaincode stub, in order. */
    method DeleteStaged()
      modifies ledger`writes
      ensures ledger.writes == old(ledger.writes) + Deletes(keysToRemove)
    {
      var i := 0;
      while i < |keysToRemove|
        invariant 0 <= i <= |keysToRemove|
        invariant ledger.writes == old(ledger.writes) + Deletes(keysToRemove[..i])
      {
        assert Deletes(keysToRemove[..i + 1]) == Deletes(keysToRemove[..i]) + [DeleteOp(keysToRemove[i])];
        ledger.DeleteState(keysToRemove[i]);
        i := i + 1;
      }
      assert keysToRemove[..i] == keysToRemove;
    }

    /** The second loop of `commitToState`: every buffered value is written in
        map order; a null value throws and stops the loop. */
    method WriteBuffered() returns (r: Result<()>)
      modifies ledger`writes
      ensures ledger.writes == old(ledger.writes) + Puts(state)
      ensures r.Ok? <==> AllSet(state)
    {
      var i := 0;
      while i < |state|
        invariant 0 <= i <= |state|
        invariant AllSet(state[..i])
        invariant ledger.writes == old(ledger.writes) + Puts(state[..i])
      {
        if state[i].1.None? {
          assert !AllSet(state);
          assert Puts(state) == Puts(state[..i]) by { PutsPrefix(state, i); }
          return Err(Fail("The first argument must be of type string"));
        }
        PutsSnoc(state[..i], state[i]);
        assert state[..i + 1] == state[..i] + [state[i]];
        ledger.PutState(state[i].0, state[i].1.value);
        i := i + 1;
      }
      assert state[..i] == state;
      r := Ok(());
    }

    /** `destroy()`: the empty event queue emits nothing; `state` and
        `keysToRemove` are dropped. A second call fails on the null `state`. */
    method Destroy() returns (r: Result<()>)
      modifies this`destroyed, this`state, this`keysToRemove
      ensures destroyed
      ensures r.Err? <==> old(destroyed)
      ensures r.Ok? ==> state == [] && keysToRemove == []
      ensures r.Err? ==> state == old(state) && keysToRemove == old(keysToRemove)
    {
      if destroyed {
        return Err(NullReference("clear"));
      }
      state := [];
      keysToRemove := [];
      destroyed := true;
      r := Ok(());
    }
  }

  /** The entries whose key is not staged for removal, in order. */
  function NotRemoved(items: seq<KeyValue>, removed: seq<string>): (r: seq<KeyValue>)
    ensures forall x :: x in r <==> x in items && x.key !in removed
    ensures |r| <= |items|
    decreases |items|
  {
    if |items| == 0 then []
    else (if items[0].key in removed then [] else [items[0]]) + NotRemoved(items[1..], removed)
  }

  /** The writes stop at the first null value: the ones issued before it are
      the writes of the whole buffer. */
  lemma {:induction false} PutsPrefix(e: Entries, i: nat)
    requires i < |e| && AllSet(e[..i]) && e[i].1.None?
    ensures Puts(e) == Puts(e[..i])
    decreases i
  {
    if i == 0 {
      assert e[..0] == [];
    } else {
      assert e[..i][0] == e[0];
      assert e[..i][1..] == e[1..][..i - 1];
      assert AllSet(e[1..][..i - 1]);
      PutsPrefix(e[1..], i - 1);
    }
  }
}
