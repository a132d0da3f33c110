/** The response correlator: matches an acknowledgement to the send stamp of
    its order and measures the round trip. */
module Correlator {
  import opened Orders

  /** One line of the response log: order id, response kind and latency in
      clock ticks. */
  datatype LogLine = LogLine(orderId: int, responseType: ResponseType, latency: int)

  /** Removes the response's order id from the send stamps. A stamp that is
      present and non-zero (Python truthiness) yields a log line with the
      latency `now - stamp`; an absent id, or a zero stamp, logs nothing. */
  function Correlate(sentOrders: map<int, int>, resp: OrderResponse, now: int)
    : (r: (map<int, int>, Option<LogLine>))
    ensures resp.orderId !in r.0
    ensures forall id :: id != resp.orderId ==>
      (id in r.0 <==> id in sentOrders) && (id in r.0 ==> r.0[id] == sentOrders[id])
    ensures r.1.Some? <==> resp.orderId in sentOrders && sentOrders[resp.orderId] != 0
    ensures r.1.Some? ==>
      r.1.value == LogLine(resp.orderId, resp.responseType, now - sentOrders[resp.orderId])
    ensures resp.orderId !in sentOrders ==> r.0 == sentOrders
  {
    var sentTime := if resp.orderId in sentOrders then Some(sentOrders[resp.orderId]) else None;
    var rest := sentOrders - {resp.orderId};
    if sentTime.Some? && sentTime.value != 0 then
      (rest, Some(LogLine(resp.orderId, resp.responseType, now - sentTime.value)))
    else
      (rest, None)
  }

  /** A second response for the same order finds nothing left to match. */
  lemma DuplicateUnmatched(sentOrders: map<int, int>, first: OrderResponse, second: OrderResponse, t1: int, t2: int)
    requires first.orderId == second.orderId
    ensures var after := Correlate(sentOrders, first, t1).0;
      Correlate(after, second, t2) == (after, None)
  {
  }
}
