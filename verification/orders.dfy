/** Data model of the order-management gateway: request and response records,
    the two clocks the gateway reads, and a few small helpers shared by the
    other modules. */
module Orders {

  datatype Option<T> = None | Some(value: T)

  /** The kind of an inbound instruction. `Unknown` is a legal value of the
      enumeration and is queued like `New`. */
  datatype RequestType = Unknown | New | Modify | Cancel

  datatype ResponseType = Unknown | Accept | Reject

  /** Prices are floating point in order_management.py; here they are integers in
      hundredths of a currency unit and are only ever copied, never computed. */
  type Price = int

  datatype OrderRequest = OrderRequest(
    symbolId: int,
    price: Price,
    qty: int,
    side: string,
    orderId: int,
    requestType: RequestType)

  datatype OrderResponse = OrderResponse(orderId: int, responseType: ResponseType)

  /** The wall clock (`time.time()`) is an integer count of microsecond ticks. */
  const TicksPerSecond: int := 1_000_000

  /** Time of day (`datetime.now().time()`), microseconds since midnight. */
  const MicrosPerDay: int := 86_400 * TicksPerSecond

  type TimeOfDay = t: int | 0 <= t < MicrosPerDay

  /** The time of day h:m:s.us. */
  function At(h: int, m: int, s: int, us: int): (t: TimeOfDay)
    requires 0 <= h < 24 && 0 <= m < 60 && 0 <= s < 60 && 0 <= us < TicksPerSecond
  {
    ((h * 60 + m) * 60 + s) * TicksPerSecond + us
  }

  /** Modify and Cancel reconcile against the pending queue; every other kind
      is appended to it. */
  predicate Reconciles(k: RequestType) {
    k == Modify || k == Cancel
  }

  /** The order ids occurring in a sequence of requests. */
  function Ids(q: seq<OrderRequest>): set<int> {
    set i | 0 <= i < |q| :: q[i].orderId
  }

  lemma IdsCons(e: OrderRequest, q: seq<OrderRequest>)
    ensures Ids([e] + q) == {e.orderId} + Ids(q)
  {
    var s := [e] + q;
    forall id | id in Ids(s) ensures id in {e.orderId} + Ids(q) {
      var i :| 0 <= i < |s| && s[i].orderId == id;
      if i > 0 {
        assert q[i - 1].orderId == id;
      }
    }
    forall id | id in Ids(q) ensures id in Ids(s) {
      var i :| 0 <= i < |q| && q[i].orderId == id;
      assert s[i + 1].orderId == id;
    }
    assert s[0].orderId == e.orderId;
  }
}
