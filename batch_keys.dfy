/** The keys under which the batch receiver queues commands:
    `COMMAND_BATCH/<time padded to 14 digits>/<transaction hash>/<command id>`,
    so that a range scan over the prefix returns them in time order. */
module BatchKeys {
  import opened Common
  import opened Strings
  import opened Constants

  const PREFIX: string := "COMMAND_BATCH"

  /** `time.toString()` for an integer number of milliseconds. */
  function TimeString(time: int): string
  {
    if time < 0 then "-" + NatToString(-time) else NatToString(time)
  }

  /** `toBatchKey(date, hash, command)`. */
  function ToBatchKey(time: int, hash: string, id: string): string
  {
    PREFIX + "/" + PadStart(TimeString(time), 14) + "/" + hash + "/" + id
  }

  /** `item.split('/')[2]`: undefined (None) when the key has fewer parts. */
  function BatchKeyToHash(key: string): (r: Option<string>)
    ensures r.Some? <==> |Split(key, '/')| > 2
  {
    var parts := Split(key, '/');
    if |parts| > 2 then Some(parts[2]) else None
  }

  /** `Number(text)` on the texts this model reads: the empty text is 0, an
      optional minus sign followed by decimal digits is that integer, and
      everything else is NaN (None). */
  function NumberOf(text: string): (r: Option<int>)
    ensures AllDigits(text) ==> r == Some(if |text| == 0 then 0 else DecimalValue(text))
  {
    if |text| == 0 then Some(0)
    else if AllDigits(text) then Some(DecimalValue(text))
    else if text[0] == '-' && |text| > 1 && AllDigits(text[1..]) then Some(0 - DecimalValue(text[1..]) as int)
    else None
  }

  /** `batchKeyToDate(item)`: the time in the second part, as milliseconds;
      None for an invalid date. */
  function BatchKeyToDate(key: string): (r: Option<int>)
    ensures |Split(key, '/')| < 2 ==> r.None?
  {
    var parts := Split(key, '/');
    if |parts| > 1 then NumberOf(parts[1]) else None
  }

  /** `isCommandBatch(payload)`: the payload asks for the queued commands to
      be run. */
  predicate IsCommandBatch(name: string)
  {
    name == TRANSPORT_FABRIC_COMMAND_BATCH_NAME
  }

  /** The padded time of a key made from a non-negative time is a string of
      decimal digits with the time's value. */
  lemma PaddedTime(time: nat)
    ensures AllDigits(PadStart(TimeString(time), 14))
    ensures DecimalValue(PadStart(TimeString(time), 14)) == time
    ensures |PadStart(TimeString(time), 14)| >= 1
  {
    var s := NatToString(time);
    DecimalRoundTrip(time);
    if |s| < 14 {
      LeadingZeros(14 - |s|, s);
    }
  }

  /** The padded time contains no separator. */
  lemma PaddedTimeNoSlash(time: int)
    ensures '/' !in PadStart(TimeString(time), 14)
  {
    var t := TimeString(time);
    var n := if time < 0 then -time else time;
    assert AllDigits(NatToString(n));
    assert forall i :: 0 <= i < |t| ==> t[i] != '/' by {
      if time < 0 {
        assert t == "-" + NatToString(n);
        assert forall i :: 1 <= i < |t| ==> t[i] == NatToString(n)[i - 1];
      }
    }
    if |t| < 14 {
      var z := Zeros(14 - |t|);
      assert forall i :: 0 <= i < |z + t| ==> (z + t)[i] != '/' by {
        forall i | 0 <= i < |z + t|
          ensures (z + t)[i] != '/'
        {
          if i < |z| {
            assert (z + t)[i] == '0';
          } else {
            assert (z + t)[i] == t[i - |z|];
          }
        }
      }
    }
  }

  /** The parts of a batch key, when the hash has no separator. */
  lemma BatchKeyParts(time: int, hash: string, id: string)
    requires '/' !in hash
    ensures Split(ToBatchKey(time, hash, id), '/') == [PREFIX, PadStart(TimeString(time), 14), hash] + Split(id, '/')
  {
    var t := PadStart(TimeString(time), 14);
    PaddedTimeNoSlash(time);
    var tail := hash + ['/'] + id;
    var mid := t + ['/'] + tail;
    var key := ToBatchKey(time, hash, id);
    KeyShape(PREFIX, t, hash, id);
    assert key == PREFIX + ['/'] + mid;
    PrefixNoSlash();
    calc {
      Split(key, '/');
      { SplitFirst(PREFIX, '/', mid); }
      [PREFIX] + Split(mid, '/');
      { SplitFirst(t, '/', tail); }
      [PREFIX] + ([t] + Split(tail, '/'));
      { SplitFirst(hash, '/', id); }
      [PREFIX] + ([t] + ([hash] + Split(id, '/')));
    }
    assert [PREFIX] + ([t] + ([hash] + Split(id, '/'))) == [PREFIX, t, hash] + Split(id, '/');
  }

  lemma PrefixNoSlash()
    ensures '/' !in PREFIX
  {
  }

  lemma KeyShape(p: string, t: string, hash: string, id: string)
    ensures p + "/" + t + "/" + hash + "/" + id == p + ['/'] + (t + ['/'] + (hash + ['/'] + id))
  {
  }

  /** The hash is read back from the key, whatever the id. */
  lemma HashRoundTrip(time: int, hash: string, id: string)
    requires '/' !in hash
    ensures BatchKeyToHash(ToBatchKey(time, hash, id)) == Some(hash)
  {
    BatchKeyParts(time, hash, id);
  }

  /** The time is read back from the key when it is not negative. */
  lemma DateRoundTrip(time: nat, hash: string, id: string)
    requires '/' !in hash
    ensures BatchKeyToDate(ToBatchKey(time, hash, id)) == Some(time)
  {
    BatchKeyParts(time, hash, id);
    PaddedTime(time);
  }

  /** Keys of earlier times sort first, for times below 10^14 (the padding
      width), whatever the hashes and ids. */
  lemma KeyOrder(t1: nat, t2: nat, h1: string, h2: string, i1: string, i2: string)
    requires t1 < t2 < Pow10(14)
    ensures LexLess(ToBatchKey(t1, h1, i1), ToBatchKey(t2, h2, i2))
  {
    var p1, p2 := PadStart(TimeString(t1), 14), PadStart(TimeString(t2), 14);
    var x1, x2 := "/" + h1 + "/" + i1, "/" + h2 + "/" + i2;
    PaddedTimeOrder(t1, t2);
    LexLessExtend(p1, p2, x1, x2);
    LexLessPrefix(PREFIX + "/", p1 + x1, p2 + x2);
    KeyAsPrefix(p1, h1, i1);
    KeyAsPrefix(p2, h2, i2);
  }

  /** A batch key is the prefix and a slash, followed by the rest of the key. */
  lemma KeyAsPrefix(t: string, hash: string, id: string)
    ensures PREFIX + "/" + t + "/" + hash + "/" + id == (PREFIX + "/") + (t + ("/" + hash + "/" + id))
  {
  }

  /** Below 10^14 the padded times have one length and keep the times' order. */
  lemma PaddedTimeOrder(t1: nat, t2: nat)
    requires t1 < t2 < Pow10(14)
    ensures |PadStart(TimeString(t1), 14)| == 14 == |PadStart(TimeString(t2), 14)|
    ensures LexLess(PadStart(TimeString(t1), 14), PadStart(TimeString(t2), 14))
  {
    PaddedTime(t1);
    PaddedTime(t2);
    NatToStringLength(t1, 14);
    NatToStringLength(t2, 14);
    DigitsOrder(PadStart(TimeString(t1), 14), PadStart(TimeString(t2), 14));
  }

  /** Every batch key lies in the range the flush scans,
      `[PREFIX, PREFIX + '￰')`. */
  lemma KeyInQueueRange(time: int, hash: string, id: string)
    ensures !LexLess(ToBatchKey(time, hash, id), PREFIX)
    ensures LexLess(ToBatchKey(time, hash, id), PREFIX + ['\U{FFF0}'])
  {
    var rest := "/" + PadStart(TimeString(time), 14) + "/" + hash + "/" + id;
    assert ToBatchKey(time, hash, id) == PREFIX + rest;
    PrefixNotBelow(PREFIX, rest);
    PrefixBelowBound(PREFIX, rest, '\U{FFF0}');
  }
}
