/** `TransportFabricSenderFactory`: one client per connection uid, made on
    first use and connected whenever it is handed out disconnected. */
module SenderFactory {
  import opened Common
  import opened Sender

  class SenderFactory {
    /** The settings of each uid (`settings.get(uid)`). */
    const settingsOf: string -> Option<Settings>
    const codec: Codec
    const optionsValid: Json -> bool
    /** The `items` map. */
    var items: map<string, Sender>

    /** Every cached client keeps its connection invariant, and no client is
        cached under two uids. */
    predicate Valid()
      reads this, items.Values
    {
      (forall uid :: uid in items ==> items[uid].Valid())
      && (forall u, v :: u in items && v in items && items[u] == items[v] ==> u == v)
    }

    constructor (settingsOf: string -> Option<Settings>, codec: Codec, optionsValid: Json -> bool)
      ensures Valid() && items == map[]
      ensures this.settingsOf == settingsOf && this.codec == codec && this.optionsValid == optionsValid
    {
      this.settingsOf := settingsOf;
      this.codec := codec;
      this.optionsValid := optionsValid;
      items := map[];
    }

    /** `get(uid)`: the cached client, or a new base client stored under
        `uid`; connected first when it is not connected, and the connection
        error when that fails. Entries are never removed or replaced. */
    method Get(uid: string, outcomes: nat -> Result<()>) returns (r: Result<Sender>)
      requires Valid()
      modifies this`items, items.Values
      ensures Valid()
      ensures uid in items
      ensures forall u :: u in old(items) ==> u in items && items[u] == old(items)[u]
      ensures items.Keys == old(items.Keys) + {uid}
      ensures uid !in old(items) ==> fresh(items[uid]) && !items[uid].batching && items[uid].codec == codec
      ensures uid in old(items) && old(items[uid].isConnected) ==> r == Ok(items[uid]) && unchanged(items[uid])
      ensures r.Ok? ==> r.value == items[uid] && r.value.isConnected
      ensures (uid !in old(items) || !old(items[uid].isConnected)) ==>
        var s := if uid in old(items) then old(items[uid].settings) else settingsOf(uid);
        (s.None? ==> r.Err?)
        && (s.Some? ==> (r.Ok? <==> ReconnectOutcome(outcomes, 0, WithDefaults(s.value).reconnectMaxAttempts.value).1))
      ensures forall u :: u in old(items) && u != uid ==> unchanged(items[u])
    {
      if uid !in items {
        var item := new Sender(settingsOf(uid), false, codec, optionsValid);
        items := items[uid := item];
      }
      var item := items[uid];
      if !item.isConnected {
        var connected := item.Connect(outcomes);
        if connected.Err? {
          return Err(connected.error);
        }
      }
      r := Ok(item);
    }
  }
}
