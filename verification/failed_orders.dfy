/** The record of failed orders: which orders the tracker refuses to take again. */
module FailedOrders {
  import opened SdkCoins
  import opened LpModel

  /** The SHA-256 hash of the JSON of id and fee, taken as injective. */
  datatype Hash = Hash(id: OrderId, fee: Coin)

  type Record = map<OrderId, Hash>

  datatype Event =
    | Failure(id: OrderId, fee: Coin)                    // a fulfilment failed, not by an RPC error
    | Seen(id: OrderId, fee: Coin, supported: bool)      // `canFulfillOrder`

  /** `canFulfillOrder`: the record is only looked at, and cleared, for a supported rollapp. */
  function AcceptOrder(record: Record, id: OrderId, fee: Coin, supported: bool): (bool, Record) {
    if !supported then (false, record)
    else if id in record then
      if record[id] == Hash(id, fee) then (false, record) else (true, record - {id})
    else (true, record)
  }

  function Happen(record: Record, e: Event): Record {
    match e
    case Failure(id, fee) => record[id := Hash(id, fee)]
    case Seen(id, fee, supported) => AcceptOrder(record, id, fee, supported).1
  }

  function History(events: seq<Event>): Record {
    if events == [] then map[] else Happen(History(events[..|events| - 1]), events[|events| - 1])
  }

  /** The event shows `id` with another fee. */
  predicate Changes(e: Event, id: OrderId, fee: Coin) {
    match e
    case Failure(i, f) => i == id && f != fee
    case Seen(i, f, supported) => supported && i == id && f != fee
  }

  /** The last failure of (id, fee) was not followed by the id with another fee. */
  ghost predicate StillFailed(events: seq<Event>, id: OrderId, fee: Coin) {
    exists k :: 0 <= k < |events| && events[k] == Failure(id, fee)
             && forall j :: k < j < |events| ==> !Changes(events[j], id, fee)
  }

  lemma {:induction false} RecordMeansFailed(events: seq<Event>, id: OrderId, fee: Coin)
    ensures (id in History(events) && History(events)[id] == Hash(id, fee)) <==> StillFailed(events, id, fee)
    ensures id in History(events) ==> History(events)[id].id == id
  {
    if events != [] {
      var n := |events| - 1;
      var before := events[..n];
      RecordMeansFailed(before, id, fee);
      if StillFailed(before, id, fee) && !Changes(events[n], id, fee) {
        var k :| 0 <= k < |before| && before[k] == Failure(id, fee)
              && forall j :: k < j < |before| ==> !Changes(before[j], id, fee);
        assert events[k] == Failure(id, fee);
        forall j | k < j < |events| ensures !Changes(events[j], id, fee) {
          assert j < n ==> events[j] == before[j];
        }
      }
      if StillFailed(events, id, fee) && events[n] != Failure(id, fee) {
        var k :| 0 <= k < |events| && events[k] == Failure(id, fee)
              && forall j :: k < j < |events| ==> !Changes(events[j], id, fee);
        assert before[k] == Failure(id, fee);
        forall j | k < j < |before| ensures !Changes(before[j], id, fee) {
          assert before[j] == events[j];
        }
      }
      if events[n] == Failure(id, fee) {
        assert events[n] == Failure(id, fee);
      }
    }
  }

  /** Over every history, an order is refused exactly when its rollapp is unsupported, or the same id
      and fee failed and the id has not been seen, and has not failed, with another fee since. */
  lemma RefusedExactly(events: seq<Event>, id: OrderId, fee: Coin, supported: bool)
    ensures !AcceptOrder(History(events), id, fee, supported).0
       <==> (!supported || StillFailed(events, id, fee))
  {
    RecordMeansFailed(events, id, fee);
  }
}
