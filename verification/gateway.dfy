/** The gateway object: configuration, the state it owns, the admission of
    requests, one pass of the sending loop, and runs of interleaved inputs. */
module Gateway {
  import opened Orders
  import opened Session
  import opened Store
  import opened Dispatch
  import opened Correlator

  /** Construction-time configuration: the per-second send budget and the
      session window. */
  datatype Config = Config(maxOrdersPerSec: int, window: Window)

  /** The configuration a gateway gets when none is given. */
  const DefaultConfig: Config := Config(100, DefaultWindow)

  /** The gateway's mutable state: pending queue, sends counted in the
      current budget window, the window's start on the wall clock, and the
      send stamp of every order still awaiting its response. */
  datatype State = State(
    queue: seq<OrderRequest>,
    sendCount: int,
    lastReset: int,
    sentOrders: map<int, int>)

  /** A freshly constructed gateway, its budget window opened at `clock`. */
  function Init(clock: int): State {
    State([], 0, clock, map[])
  }

  /** What became of an inbound request. */
  datatype Admission =
    | Rejected            // outside the session window, not queued
    | Reconciled(found: bool)  // a Modify or Cancel; whether its id was pending
    | Enqueued            // appended to the pending queue

  /** Admission of `req` at time of day `tod`. Outside the session window
      nothing changes, whatever the request. Modify and Cancel rewrite the
      queue and are never queued themselves; every other kind, Unknown
      included, is appended without any duplicate-id check. */
  function OnData(cfg: Config, s: State, req: OrderRequest, tod: TimeOfDay): (r: (State, Admission))
    ensures !Allowed(cfg.window, tod) ==> r == (s, Rejected)
    ensures Allowed(cfg.window, tod) && !Reconciles(req.requestType) ==>
      r == (s.(queue := s.queue + [req]), Enqueued)
    ensures Allowed(cfg.window, tod) && Reconciles(req.requestType) ==>
      && r.1 == Reconciled(req.orderId in Ids(s.queue))
      && r.0.sendCount == s.sendCount
      && r.0.lastReset == s.lastReset
      && r.0.sentOrders == s.sentOrders
    ensures Allowed(cfg.window, tod) && req.requestType == Cancel ==>
      r.0.queue == Without(s.queue, req.orderId)
    ensures Allowed(cfg.window, tod) && req.requestType == Modify ==>
      r.0.queue == Amend(s.queue, req)
  {
    if !Allowed(cfg.window, tod) then
      (s, Rejected)
    else if Reconciles(req.requestType) then
      var (q, found) := Reconcile(s.queue, req);
      (s.(queue := q), Reconciled(found))
    else
      (s.(queue := s.queue + [req]), Enqueued)
  }

  /** One pass of the sending loop at wall-clock `now`: refresh the budget
      window, then send from the front of the queue while the budget lasts.
      The session window is not consulted. Returns the new state and the
      orders sent, in sending order. */
  function SendCycle(cfg: Config, s: State, now: int): (State, seq<OrderRequest>) {
    var (count, lastReset) := Refresh(s.sendCount, s.lastReset, now);
    var d := Drain(cfg.maxOrdersPerSec, s.queue, count, s.sentOrders, now);
    (State(d.queue, d.count, lastReset, d.sentOrders), d.dispatched)
  }

  /** A pass refreshes the budget window after a full second, then sends
      the first `Quota` entries, keeps the rest in order, counts and stamps
      what it sent, and keeps the count within a non-negative budget. */
  lemma SendCycleSpec(cfg: Config, s: State, now: int)
    ensures var r := SendCycle(cfg, s, now);
      var refreshed := now - s.lastReset >= TicksPerSecond;
      var base := if refreshed then 0 else s.sendCount;
      var k := Quota(cfg.maxOrdersPerSec, base, |s.queue|);
      && r.0.lastReset == (if refreshed then now else s.lastReset)
      && r.1 == s.queue[..k]
      && r.0.queue == s.queue[k..]
      && r.0.sendCount == base + k
      && r.0.sentOrders == StampAll(s.sentOrders, r.1, now)
    ensures var r := SendCycle(cfg, s, now);
      0 <= s.sendCount <= cfg.maxOrdersPerSec ==> 0 <= r.0.sendCount <= cfg.maxOrdersPerSec
    ensures var r := SendCycle(cfg, s, now); r.1 + r.0.queue == s.queue
  {
    var (count, lastReset) := Refresh(s.sendCount, s.lastReset, now);
    DrainSpec(cfg.maxOrdersPerSec, s.queue, count, s.sentOrders, now);
    DrainSplitsQueue(cfg.maxOrdersPerSec, s.queue, count, s.sentOrders, now);
  }

  /** The inputs the gateway reacts to: a request from a caller at a time of
      day, a response at a wall-clock time, and a pass of the sending loop. */
  datatype Input =
    | Request(req: OrderRequest, tod: TimeOfDay)
    | Response(resp: OrderResponse, clock: int)
    | Poll(clock: int)

  /** The state after a sequence of inputs, with everything sent and logged
      along the way. */
  datatype Trace = Trace(state: State, dispatched: seq<OrderRequest>, log: seq<LogLine>)

  function Step(cfg: Config, s: State, input: Input): Trace {
    match input
    case Request(req, tod) => Trace(OnData(cfg, s, req, tod).0, [], [])
    case Response(resp, clock) =>
      var (sent, line) := Correlate(s.sentOrders, resp, clock);
      Trace(s.(sentOrders := sent), [], if line.Some? then [line.value] else [])
    case Poll(clock) =>
      var (s', out) := SendCycle(cfg, s, clock);
      Trace(s', out, [])
  }

  /** The step function of a gateway configured with `cfg`. */
  function StepOf(cfg: Config): (State, Input) -> Trace {
    (s: State, input: Input) => Step(cfg, s, input)
  }

  /** The inputs fed one after another through `step`, with everything
      sent and logged collected in order. */
  function Fold(step: (State, Input) -> Trace, s: State, inputs: seq<Input>): Trace
    decreases |inputs|
  {
    if |inputs| == 0 then Trace(s, [], [])
    else
      var t := step(s, inputs[0]);
      var rest := Fold(step, t.state, inputs[1..]);
      Trace(rest.state, t.dispatched + rest.dispatched, t.log + rest.log)
  }

  function Run(cfg: Config, s: State, inputs: seq<Input>): Trace {
    Fold(StepOf(cfg), s, inputs)
  }

  /** Until a full second has passed since the budget window opened, no
      interleaving of requests, responses and passes of the sending loop
      sends more than what is left of the budget. */
  lemma {:induction false} RateCeiling(cfg: Config, s: State, inputs: seq<Input>)
    requires 0 <= s.sendCount <= cfg.maxOrdersPerSec
    requires forall i :: 0 <= i < |inputs| && inputs[i].Poll? ==> inputs[i].clock - s.lastReset < TicksPerSecond
    ensures Run(cfg, s, inputs).state.lastReset == s.lastReset
    ensures Run(cfg, s, inputs).state.sendCount == s.sendCount + |Run(cfg, s, inputs).dispatched|
    ensures s.sendCount + |Run(cfg, s, inputs).dispatched| <= cfg.maxOrdersPerSec
    decreases |inputs|
  {
    if |inputs| > 0 {
      var t := Step(cfg, s, inputs[0]);
      if inputs[0].Poll? {
        SendCycleSpec(cfg, s, inputs[0].clock);
      }
      assert t.state.lastReset == s.lastReset;
      assert t.state.sendCount == s.sendCount + |t.dispatched|;
      forall i | 0 <= i < |inputs[1..]| && inputs[1..][i].Poll?
        ensures inputs[1..][i].clock - t.state.lastReset < TicksPerSecond
      {
        assert inputs[1..][i] == inputs[i + 1];
      }
      RateCeiling(cfg, t.state, inputs[1..]);
    }
  }

  /** The requests of `inputs` that the gateway appends to its queue: those
      inside the session window that are neither Modify nor Cancel. */
  function Admitted(cfg: Config, inputs: seq<Input>): seq<OrderRequest>
    decreases |inputs|
  {
    if |inputs| == 0 then []
    else
      var head :=
        if inputs[0].Request? && Allowed(cfg.window, inputs[0].tod) && !Reconciles(inputs[0].req.requestType)
        then [inputs[0].req] else [];
      head + Admitted(cfg, inputs[1..])
  }

  /** Without Modify or Cancel requests, orders go out in the order they
      were admitted: everything sent, followed by what is still pending, is
      the initial queue followed by the admitted requests. */
  lemma {:induction false} FifoDispatch(cfg: Config, s: State, inputs: seq<Input>)
    requires forall i :: 0 <= i < |inputs| && inputs[i].Request? ==> !Reconciles(inputs[i].req.requestType)
    ensures var r := Run(cfg, s, inputs); r.dispatched + r.state.queue == s.queue + Admitted(cfg, inputs)
    decreases |inputs|
  {
    if |inputs| > 0 {
      var t := Step(cfg, s, inputs[0]);
      var rest := Run(cfg, t.state, inputs[1..]);
      var head := Admitted(cfg, [inputs[0]]);
      var tail := Admitted(cfg, inputs[1..]);
      RunCons(cfg, s, inputs);
      StepFifo(cfg, s, inputs[0]);
      AdmittedCons(cfg, inputs);
      forall i | 0 <= i < |inputs[1..]| && inputs[1..][i].Request?
        ensures !Reconciles(inputs[1..][i].req.requestType)
      {
        assert inputs[1..][i] == inputs[i + 1];
      }
      FifoDispatch(cfg, t.state, inputs[1..]);
      Regroup(t.dispatched, rest.dispatched, rest.state.queue, t.state.queue, s.queue, head, tail);
    }
  }

  /** A freshly constructed gateway starts with nothing pending, nothing
      counted and nothing stamped, so during its first second it sends at
      most the budget, and without Modify or Cancel it sends exactly the
      admitted requests, in arrival order, that have not stayed pending. */
  lemma FreshGateway(cfg: Config, clock: int, inputs: seq<Input>)
    requires cfg.maxOrdersPerSec >= 0
    requires forall i :: 0 <= i < |inputs| && inputs[i].Poll? ==> inputs[i].clock - clock < TicksPerSecond
    ensures var r := Run(cfg, Init(clock), inputs);
      && |r.dispatched| <= cfg.maxOrdersPerSec
      && r.state.sendCount == |r.dispatched|
      && r.state.lastReset == clock
    ensures (forall i :: 0 <= i < |inputs| && inputs[i].Request? ==> !Reconciles(inputs[i].req.requestType)) ==>
      var r := Run(cfg, Init(clock), inputs); r.dispatched + r.state.queue == Admitted(cfg, inputs)
  {
    RateCeiling(cfg, Init(clock), inputs);
    if forall i :: 0 <= i < |inputs| && inputs[i].Request? ==> !Reconciles(inputs[i].req.requestType) {
      FifoDispatch(cfg, Init(clock), inputs);
      assert Init(clock).queue + Admitted(cfg, inputs) == Admitted(cfg, inputs);
    }
  }

  lemma Regroup<T>(sent1: seq<T>, sent2: seq<T>, left2: seq<T>, left1: seq<T>, q: seq<T>, head: seq<T>, tail: seq<T>)
    requires sent2 + left2 == left1 + tail
    requires sent1 + left1 == q + head
    ensures (sent1 + sent2) + left2 == q + (head + tail)
  {
    calc {
      (sent1 + sent2) + left2;
      sent1 + (left1 + tail);
      (sent1 + left1) + tail;
    }
  }

  /** A run of `a` then `b` is the run of `a` continued by the run of `b`
      from where it stopped. */
  lemma {:induction false} FoldAppend(step: (State, Input) -> Trace, s: State, a: seq<Input>, b: seq<Input>)
    ensures var ra := Fold(step, s, a);
      var rb := Fold(step, ra.state, b);
      Fold(step, s, a + b) == Trace(rb.state, ra.dispatched + rb.dispatched, ra.log + rb.log)
    decreases |a|
  {
    if |a| == 0 {
      assert a + b == b;
    } else {
      assert (a + b)[0] == a[0] && (a + b)[1..] == a[1..] + b;
      var t := step(s, a[0]);
      FoldAppend(step, t.state, a[1..], b);
      var ra := Fold(step, t.state, a[1..]);
      var rb := Fold(step, ra.state, b);
      assert t.dispatched + (ra.dispatched + rb.dispatched) == (t.dispatched + ra.dispatched) + rb.dispatched;
      assert t.log + (ra.log + rb.log) == (t.log + ra.log) + rb.log;
    }
  }

  lemma RunAppend(cfg: Config, s: State, a: seq<Input>, b: seq<Input>)
    ensures var ra := Run(cfg, s, a);
      var rb := Run(cfg, ra.state, b);
      Run(cfg, s, a + b) == Trace(rb.state, ra.dispatched + rb.dispatched, ra.log + rb.log)
  {
    FoldAppend(StepOf(cfg), s, a, b);
  }

  lemma RunCons(cfg: Config, s: State, inputs: seq<Input>)
    requires |inputs| > 0
    ensures var t := Step(cfg, s, inputs[0]);
      var rest := Run(cfg, t.state, inputs[1..]);
      Run(cfg, s, inputs) == Trace(rest.state, t.dispatched + rest.dispatched, t.log + rest.log)
  {
  }

  lemma StepFifo(cfg: Config, s: State, input: Input)
    requires input.Request? ==> !Reconciles(input.req.requestType)
    ensures var t := Step(cfg, s, input); t.dispatched + t.state.queue == s.queue + Admitted(cfg, [input])
  {
    assert [input][1..] == [];
    match input
    case Request(req, tod) =>
    case Response(resp, clock) =>
    case Poll(clock) => SendCycleSpec(cfg, s, clock);
  }

  lemma AdmittedCons(cfg: Config, inputs: seq<Input>)
    requires |inputs| > 0
    ensures Admitted(cfg, inputs) == Admitted(cfg, [inputs[0]]) + Admitted(cfg, inputs[1..])
  {
    assert [inputs[0]][1..] == [];
  }

  /** Inside the window, a request that is neither Modify nor Cancel is
      appended to the queue and nothing else happens. */
  lemma AdmitStep(cfg: Config, s: State, req: OrderRequest, tod: TimeOfDay)
    requires Allowed(cfg.window, tod) && !Reconciles(req.requestType)
    ensures Step(cfg, s, Request(req, tod)) == Trace(s.(queue := s.queue + [req]), [], [])
  {
  }

  /** A Modify or Cancel of an id that is not pending leaves the whole
      state as it was. */
  lemma EditMissStep(cfg: Config, s: State, req: OrderRequest, tod: TimeOfDay)
    requires Reconciles(req.requestType) && req.orderId !in Ids(s.queue)
    ensures Step(cfg, s, Request(req, tod)) == Trace(s, [], [])
  {
  }

  /** A pass inside a budget window that is already spent sends nothing
      and changes nothing. */
  lemma SpentPass(cfg: Config, s: State, now: int)
    requires s.sendCount >= cfg.maxOrdersPerSec && now - s.lastReset < TicksPerSecond
    ensures Step(cfg, s, Poll(now)) == Trace(s, [], [])
  {
    SendCycleSpec(cfg, s, now);
    assert Quota(cfg.maxOrdersPerSec, s.sendCount, |s.queue|) == 0;
  }

  /** A pass with one order pending and budget left sends it, counts it and
      stamps its id with the pass's clock. */
  lemma SinglePass(cfg: Config, s: State, now: int)
    requires |s.queue| == 1
    requires var refreshed := now - s.lastReset >= TicksPerSecond;
      (if refreshed then 0 else s.sendCount) < cfg.maxOrdersPerSec
    ensures var refreshed := now - s.lastReset >= TicksPerSecond;
      Step(cfg, s, Poll(now))
      == Trace(State([], (if refreshed then 0 else s.sendCount) + 1,
                     if refreshed then now else s.lastReset,
                     s.sentOrders[s.queue[0].orderId := now]),
               s.queue, [])
  {
    SendCycleSpec(cfg, s, now);
    assert s.queue[..1] == s.queue && s.queue[1..] == [];
  }

  /** A response to an order stamped with a non-zero time logs its round
      trip and drops the stamp. */
  lemma ResponseStep(cfg: Config, s: State, resp: OrderResponse, clock: int)
    requires resp.orderId in s.sentOrders && s.sentOrders[resp.orderId] != 0
    ensures Step(cfg, s, Response(resp, clock))
         == Trace(s.(sentOrders := s.sentOrders - {resp.orderId}), [],
                  [LogLine(resp.orderId, resp.responseType, clock - s.sentOrders[resp.orderId])])
  {
    var r := Correlate(s.sentOrders, resp, clock);
    assert r.0 == s.sentOrders - {resp.orderId};
  }

  /** A response to an order sent by a pass at a non-zero clock `t0` logs
      the round trip `t1 - t0` and consumes the stamp. */
  lemma SendThenRespond(cfg: Config, s: State, t0: int, resp: OrderResponse, t1: int)
    requires t0 != 0
    requires resp.orderId in Ids(SendCycle(cfg, s, t0).1)
    ensures var sent := SendCycle(cfg, s, t0).0.sentOrders;
      && Correlate(sent, resp, t1).1 == Some(LogLine(resp.orderId, resp.responseType, t1 - t0))
      && resp.orderId !in Correlate(sent, resp, t1).0
  {
    var r := SendCycle(cfg, s, t0);
    SendCycleSpec(cfg, s, t0);
    StampAllStamped(s.sentOrders, r.1, t0);
  }
}
