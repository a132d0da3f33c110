/** The rate-limited dispatcher: one pass of the sending loop, which refreshes
    the one-second budget window and then sends from the front of the queue
    while the budget lasts. */
module Dispatch {
  import opened Orders

  /** How many orders a pass may send: what is left of the budget, capped
      by the queue length; nothing once the budget is spent. */
  function Quota(max: int, count: int, n: nat): (k: nat)
    ensures k <= n
    ensures count >= max ==> k == 0
    ensures count < max ==> count + k <= max
    ensures k == n || count + k >= max
  {
    if count >= max then 0
    else if max - count < n then max - count
    else n
  }

  /** The stamps after sending `sent` one by one at `now`, starting from
      `m`: each send overwrites the stamp of its order id. */
  function StampAll(m: map<int, int>, sent: seq<OrderRequest>, now: int): map<int, int>
    decreases |sent|
  {
    if |sent| == 0 then m else StampAll(m[sent[0].orderId := now], sent[1..], now)
  }

  /** `after` is `before` with every order id of `sent` stamped `now`:
      sent ids map to `now`, the other ids keep their stamps, and no other
      id appears. */
  predicate Stamped(before: map<int, int>, after: map<int, int>, sent: seq<OrderRequest>, now: int) {
    && after.Keys == before.Keys + Ids(sent)
    && (forall id :: id in Ids(sent) ==> after[id] == now)
    && (forall id :: id in before && id !in Ids(sent) ==> after[id] == before[id])
  }

  /** Stamping the orders one by one stamps exactly their ids, all with the
      same time, and keeps every other stamp. */
  lemma {:induction false} StampAllStamped(m: map<int, int>, sent: seq<OrderRequest>, now: int)
    ensures Stamped(m, StampAll(m, sent, now), sent, now)
    decreases |sent|
  {
    if |sent| == 0 {
      assert Ids(sent) == {};
    } else {
      var e := sent[0];
      StampAllStamped(m[e.orderId := now], sent[1..], now);
      IdsCons(e, sent[1..]);
      assert [e] + sent[1..] == sent;
    }
  }

  /** What the inner send loop leaves behind. */
  datatype Drained = Drained(
    dispatched: seq<OrderRequest>,
    queue: seq<OrderRequest>,
    count: int,
    sentOrders: map<int, int>)

  /** The inner send loop: while the count is below `max` and the queue is
      not empty, pop the front order, send it, stamp its id with `now` and
      count it. */
  function Drain(max: int, queue: seq<OrderRequest>, count: int, sentOrders: map<int, int>, now: int)
    : Drained
    decreases |queue|
  {
    if count < max && |queue| > 0 then
      var e := queue[0];
      var rest := Drain(max, queue[1..], count + 1, sentOrders[e.orderId := now], now);
      rest.(dispatched := [e] + rest.dispatched)
    else
      Drained([], queue, count, sentOrders)
  }

  /** Exactly the first `Quota` entries go out, oldest first: the rest stay
      queued in order, each send is counted, and the stamps are those of
      sending the prefix one by one. */
  lemma {:induction false} DrainSpec(max: int, queue: seq<OrderRequest>, count: int, sentOrders: map<int, int>, now: int)
    ensures var r := Drain(max, queue, count, sentOrders, now);
      var k := Quota(max, count, |queue|);
      && r.dispatched == queue[..k]
      && r.queue == queue[k..]
      && r.count == count + k
      && r.sentOrders == StampAll(sentOrders, queue[..k], now)
    decreases |queue|
  {
    if count < max && |queue| > 0 {
      var e := queue[0];
      DrainSpec(max, queue[1..], count + 1, sentOrders[e.orderId := now], now);
      var rest := Drain(max, queue[1..], count + 1, sentOrders[e.orderId := now], now);
      DrainStep(max, queue, count, sentOrders, now, rest.sentOrders);
    } else {
      assert queue[..0] == [];
    }
  }

  /** How one send relates the quota and stamps of a pass to those of the
      rest of the pass. */
  lemma DrainStep(max: int, queue: seq<OrderRequest>, count: int, sentOrders: map<int, int>, now: int,
                  after: map<int, int>)
    requires count < max && |queue| > 0
    requires after == StampAll(sentOrders[queue[0].orderId := now],
                               queue[1..][..Quota(max, count, |queue|) - 1], now)
    ensures var k := Quota(max, count, |queue|);
      && k > 0
      && Quota(max, count + 1, |queue| - 1) == k - 1
      && queue[..k] == [queue[0]] + queue[1..][..k - 1]
      && queue[k..] == queue[1..][k - 1..]
      && after == StampAll(sentOrders, queue[..k], now)
  {
    var k := Quota(max, count, |queue|);
    assert queue[..k][0] == queue[0] && queue[..k][1..] == queue[1..][..k - 1];
  }

  /** The budget window is refreshed once a full second has passed since
      the last refresh: the count drops to zero and the window restarts at
      `now`; otherwise both are kept. Either way the window in force began
      less than a second before `now`, and its start never moves back. */
  function Refresh(count: int, lastReset: int, now: int): (r: (int, int))
    ensures now - lastReset >= TicksPerSecond ==> r == (0, now)
    ensures now - lastReset < TicksPerSecond ==> r == (count, lastReset)
    ensures now - r.1 < TicksPerSecond
    ensures now >= lastReset ==> lastReset <= r.1 <= now
  {
    if now - lastReset >= TicksPerSecond then (0, now) else (count, lastReset)
  }

  /** A pass never lifts the count over the budget, and once the budget is
      spent nothing more is sent until the window is refreshed. */
  lemma DrainCeiling(max: int, queue: seq<OrderRequest>, count: int, sentOrders: map<int, int>, now: int)
    requires count <= max
    ensures Drain(max, queue, count, sentOrders, now).count <= max
    ensures count == max ==> Drain(max, queue, count, sentOrders, now).dispatched == []
    ensures |Drain(max, queue, count, sentOrders, now).dispatched| == Quota(max, count, |queue|)
  {
    DrainSpec(max, queue, count, sentOrders, now);
  }

  /** Dispatch is FIFO: what goes out followed by what stays is the queue
      as it was. */
  lemma DrainSplitsQueue(max: int, queue: seq<OrderRequest>, count: int, sentOrders: map<int, int>, now: int)
    ensures var r := Drain(max, queue, count, sentOrders, now); r.dispatched + r.queue == queue
  {
    DrainSpec(max, queue, count, sentOrders, now);
    var k := Quota(max, count, |queue|);
    assert queue[..k] + queue[k..] == queue;
  }
}
