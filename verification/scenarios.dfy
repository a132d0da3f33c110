/** Concrete runs built from the orders of the simulation driver
    (test_simulation.py): prices in hundredths, times of day and clocks in
    microseconds. */
module Scenarios {
  import opened Orders
  import opened Session
  import opened Store
  import opened Dispatch
  import opened Correlator
  import opened Gateway

  const New1: OrderRequest := OrderRequest(1, 10050, 10, "B", 1, New)
  const New2: OrderRequest := OrderRequest(1, 10100, 20, "S", 2, New)
  const Modify1: OrderRequest := OrderRequest(1, 9950, 15, "B", 1, Modify)
  const Cancel2: OrderRequest := OrderRequest(1, 0, 0, "S", 2, Cancel)
  const New3: OrderRequest := OrderRequest(1, 10500, 5, "B", 3, New)

  /** The driver's configuration: a budget of two orders a second and the
      window 00:00 to 23:59 it passes. Every request below arrives at a time
      of day inside that window. */
  const Sim: Config := Config(2, DefaultWindow)

  /** Orders 1 and 2 are queued in arrival order. */
  lemma BatchedNew(s: State, tod: TimeOfDay)
    requires Allowed(DefaultWindow, tod)
    requires s.queue == []
    ensures OnData(Sim, OnData(Sim, s, New1, tod).0, New2, tod).0 == s.(queue := [New1, New2])
  {
    assert Allowed(Sim.window, tod);
    assert OnData(Sim, s, New1, tod).0 == s.(queue := [New1]);
  }

  /** The Modify rewrites order 1 in place and the Cancel drops order 2. */
  lemma BatchedEdits(s: State, tod: TimeOfDay)
    requires Allowed(DefaultWindow, tod)
    requires s.queue == [New1, New2]
    ensures OnData(Sim, OnData(Sim, s, Modify1, tod).0, Cancel2, tod).0
         == s.(queue := [Amended(New1, Modify1)])
  {
    assert Allowed(Sim.window, tod);
    var m := Amended(New1, Modify1);
    assert Amend([New1, New2], Modify1) == [m, New2];
    assert OnData(Sim, s, Modify1, tod).0 == s.(queue := [m, New2]);
    assert Without([m, New2], 2) == [m] by {
      assert [m, New2][1..] == [New2];
      assert [New2][1..] == [];
      assert Without([New2], 2) == [] + Without([], 2);
      assert Without([m, New2], 2) == [m] + Without([New2], 2);
    }
  }

  /** The queue after all five requests are admitted at `tod`: order 1
      with the modified price and quantity, then order 3; order 2 is gone. */
  lemma BatchedQueue(t0: int, tod: TimeOfDay)
    requires Allowed(DefaultWindow, tod)
    ensures var s1 := OnData(Sim, Init(t0), New1, tod).0;
      var s2 := OnData(Sim, s1, New2, tod).0;
      var s3 := OnData(Sim, s2, Modify1, tod).0;
      var s4 := OnData(Sim, s3, Cancel2, tod).0;
      OnData(Sim, s4, New3, tod).0 == Init(t0).(queue := [OrderRequest(1, 9950, 15, "B", 1, New), New3])
  {
    BatchedNew(Init(t0), tod);
    var s2 := Init(t0).(queue := [New1, New2]);
    BatchedEdits(s2, tod);
    assert Allowed(Sim.window, tod);
  }

  /** All five requests admitted before the first pass of the sending loop:
      order 1 goes out with the modified price and quantity, order 2 never
      goes out, order 3 follows. */
  lemma SimulationBatched(t0: int, tod: TimeOfDay)
    requires Allowed(DefaultWindow, tod)
    ensures var s1 := OnData(Sim, Init(t0), New1, tod).0;
      var s2 := OnData(Sim, s1, New2, tod).0;
      var s3 := OnData(Sim, s2, Modify1, tod).0;
      var s4 := OnData(Sim, s3, Cancel2, tod).0;
      var s5 := OnData(Sim, s4, New3, tod).0;
      SendCycle(Sim, s5, t0).1 == [OrderRequest(1, 9950, 15, "B", 1, New), New3]
  {
    var q := [OrderRequest(1, 9950, 15, "B", 1, New), New3];
    BatchedQueue(t0, tod);
    StartPass(Init(t0).(queue := q), t0);
    assert q[..2] == q;
  }

  /** The first pass of a fresh budget window sends up to two orders. */
  lemma StartPass(s: State, now: int)
    requires s.sendCount == 0 && now - s.lastReset < TicksPerSecond
    ensures var k := if |s.queue| < 2 then |s.queue| else 2;
      var r := SendCycle(Sim, s, now);
      && r.1 == s.queue[..k] && r.0.queue == s.queue[k..]
      && r.0.sendCount == k && r.0.lastReset == s.lastReset
  {
    SendCycleSpec(Sim, s, now);
    assert Quota(2, 0, |s.queue|) == if |s.queue| < 2 then |s.queue| else 2;
  }

  /** A pass a full second after the last refresh opens a new window and
      sends up to two orders from the front. */
  lemma FreshPass(s: State, now: int)
    requires now - s.lastReset >= TicksPerSecond
    ensures var k := if |s.queue| < 2 then |s.queue| else 2;
      var r := SendCycle(Sim, s, now);
      && r.1 == s.queue[..k] && r.0.queue == s.queue[k..]
      && r.0.sendCount == k && r.0.lastReset == now
  {
    SendCycleSpec(Sim, s, now);
    assert Quota(2, 0, |s.queue|) == if |s.queue| < 2 then |s.queue| else 2;
  }

  /** Five new orders under a budget of two a second: two go out at once
      and none half a second later, three stay queued. */
  lemma BurstOpening(t0: int, batch: seq<OrderRequest>)
    requires |batch| == 5
    ensures var r1 := SendCycle(Sim, Init(t0).(queue := batch), t0);
      var r2 := SendCycle(Sim, r1.0, t0 + TicksPerSecond / 2);
      && r1.1 == batch[..2] && r2.1 == []
      && r2.0.queue == batch[2..] && r2.0.sendCount == 2 && r2.0.lastReset == t0
  {
    var r1 := SendCycle(Sim, Init(t0).(queue := batch), t0);
    StartPass(Init(t0).(queue := batch), t0);
    SpentPass(Sim, r1.0, t0 + TicksPerSecond / 2);
  }

  /** The three left over go out two once the second is over and the last
      one a second after that, emptying the queue. */
  lemma BurstRefill(s: State, t: int)
    requires |s.queue| == 3 && t - s.lastReset >= TicksPerSecond
    ensures var r3 := SendCycle(Sim, s, t);
      var r4 := SendCycle(Sim, r3.0, t + TicksPerSecond);
      && r3.1 == s.queue[..2] && r4.1 == s.queue[2..] && r4.0.queue == []
  {
    FreshPass(s, t);
    var r3 := SendCycle(Sim, s, t);
    FreshPass(r3.0, t + TicksPerSecond);
    assert s.queue[2..][..1] == s.queue[2..];
  }

  /** The ceiling is per budget window, not per sliding second: four
      queued orders under a budget of two all go out in two consecutive
      passes 10 ms apart (the loop's polling interval), the first just
      before the refresh and the second just after it. */
  lemma BurstAroundRefresh(t0: int, batch: seq<OrderRequest>)
    requires |batch| == 4
    ensures var r1 := SendCycle(Sim, Init(t0).(queue := batch), t0 + TicksPerSecond - 5 * Ms);
      var r2 := SendCycle(Sim, r1.0, t0 + TicksPerSecond + 5 * Ms);
      && r1.1 + r2.1 == batch
      && |r1.1 + r2.1| == 2 * Sim.maxOrdersPerSec
      && r2.0.queue == [] && r2.0.lastReset == t0 + TicksPerSecond + 5 * Ms
  {
    var s := Init(t0).(queue := batch);
    StartPass(s, t0 + TicksPerSecond - 5 * Ms);
    var r1 := SendCycle(Sim, s, t0 + TicksPerSecond - 5 * Ms);
    FreshPass(r1.0, t0 + TicksPerSecond + 5 * Ms);
    assert batch[..2] + batch[2..] == batch;
    assert batch[2..][..2] == batch[2..];
  }

  const Ms: int := TicksPerSecond / 1000

  /** The simulation as the sending thread, polling every 10 ms, would
      likely see it: orders 1 and 2 arrive 0.2 s apart and each goes out at
      the next poll; by the time the Modify, the Cancel and order 3 arrive
      the budget of the window opened at `t0` is spent, and order 3 goes
      out once it is refreshed; the responses come 3 s in. */
  function FirstOrder(t0: int, tod: TimeOfDay): seq<Input> {
    [Request(New1, tod), Poll(t0 + 10 * Ms)]
  }

  function SecondOrder(t0: int, tod: TimeOfDay): seq<Input> {
    [Request(New2, tod), Poll(t0 + 210 * Ms)]
  }

  function Edits(tod: TimeOfDay): seq<Input> {
    [Request(Modify1, tod), Request(Cancel2, tod)]
  }

  function ThirdOrder(t0: int, tod: TimeOfDay): seq<Input> {
    [Request(New3, tod), Poll(t0 + 810 * Ms)]
  }

  function Refill(t0: int): seq<Input> {
    [Poll(t0 + 1010 * Ms)]
  }

  function Responses(t0: int): seq<Input> {
    [Response(OrderResponse(1, Accept), t0 + 3000 * Ms),
     Response(OrderResponse(3, Reject), t0 + 3000 * Ms)]
  }

  function Simulation(t0: int, tod: TimeOfDay): seq<Input> {
    (FirstOrder(t0, tod) + SecondOrder(t0, tod))
    + (Edits(tod) + ThirdOrder(t0, tod))
    + (Refill(t0) + Responses(t0))
  }

  /** The state once order 1 is out. */
  function AfterFirst(t0: int): State {
    State([], 1, t0, map[][1 := t0 + 10 * Ms])
  }

  /** The state once orders 1 and 2 are out and the budget is spent. */
  function Spent(t0: int): State {
    State([], 2, t0, map[][1 := t0 + 10 * Ms][2 := t0 + 210 * Ms])
  }

  /** The state while order 3 waits on the spent budget. */
  function Waiting(t0: int): State {
    Spent(t0).(queue := [New3])
  }

  /** The state once order 3 is out in the next window. */
  function AfterThird(t0: int): State {
    State([], 1, t0 + 1010 * Ms, map[][1 := t0 + 10 * Ms][2 := t0 + 210 * Ms][3 := t0 + 1010 * Ms])
  }

  /** The state at the end, with only order 2's stamp left. */
  function Final(t0: int): State {
    AfterThird(t0).(sentOrders := map[2 := t0 + 210 * Ms])
  }

  lemma SimulationFirstOrder(t0: int, tod: TimeOfDay)
    requires Allowed(DefaultWindow, tod)
    ensures Run(Sim, Init(t0), FirstOrder(t0, tod)) == Trace(AfterFirst(t0), [New1], [])
  {
    var u := FirstOrder(t0, tod);
    var s1 := Init(t0).(queue := [] + [New1]);
    AdmitStep(Sim, Init(t0), New1, tod);
    SinglePass(Sim, s1, t0 + 10 * Ms);
    RunCons(Sim, Init(t0), u);
    RunCons(Sim, s1, u[1..]);
    assert u[1..][1..] == [];
  }

  lemma SimulationSecondOrder(t0: int, tod: TimeOfDay)
    requires Allowed(DefaultWindow, tod)
    ensures Run(Sim, AfterFirst(t0), SecondOrder(t0, tod)) == Trace(Spent(t0), [New2], [])
  {
    var u := SecondOrder(t0, tod);
    var s := AfterFirst(t0);
    var s1 := s.(queue := [] + [New2]);
    AdmitStep(Sim, s, New2, tod);
    SinglePass(Sim, s1, t0 + 210 * Ms);
    RunCons(Sim, s, u);
    RunCons(Sim, s1, u[1..]);
    assert u[1..][1..] == [];
  }

  /** Orders 1 and 2 each go out at the poll after they arrive, spending the
      budget. */
  lemma SimulationOpening(t0: int, tod: TimeOfDay)
    requires Allowed(DefaultWindow, tod)
    ensures Run(Sim, Init(t0), FirstOrder(t0, tod) + SecondOrder(t0, tod))
         == Trace(Spent(t0), [New1, New2], [])
  {
    SimulationFirstOrder(t0, tod);
    SimulationSecondOrder(t0, tod);
    RunAppend(Sim, Init(t0), FirstOrder(t0, tod), SecondOrder(t0, tod));
  }

  /** The Modify and the Cancel find nothing pending and change nothing. */
  lemma SimulationEdits(t0: int, tod: TimeOfDay)
    requires Allowed(DefaultWindow, tod)
    ensures Run(Sim, Spent(t0), Edits(tod)) == Trace(Spent(t0), [], [])
    ensures OnData(Sim, Spent(t0), Modify1, tod).1 == Reconciled(false)
    ensures OnData(Sim, Spent(t0), Cancel2, tod).1 == Reconciled(false)
  {
    var u := Edits(tod);
    var s := Spent(t0);
    assert Ids([]) == {};
    EditMissStep(Sim, s, Modify1, tod);
    EditMissStep(Sim, s, Cancel2, tod);
    RunCons(Sim, s, u);
    RunCons(Sim, s, u[1..]);
    assert u[1..][1..] == [];
  }

  /** Order 3 is queued but the budget is spent. */
  lemma SimulationThirdOrder(t0: int, tod: TimeOfDay)
    requires Allowed(DefaultWindow, tod)
    ensures Run(Sim, Spent(t0), ThirdOrder(t0, tod)) == Trace(Waiting(t0), [], [])
  {
    var u := ThirdOrder(t0, tod);
    var s := Spent(t0);
    assert [] + [New3] == [New3];
    AdmitStep(Sim, s, New3, tod);
    SpentPass(Sim, Waiting(t0), t0 + 810 * Ms);
    RunCons(Sim, s, u);
    RunCons(Sim, Waiting(t0), u[1..]);
    assert u[1..][1..] == [];
  }

  /** The late Modify and Cancel change nothing, and order 3 waits. */
  lemma SimulationLateEdits(t0: int, tod: TimeOfDay)
    requires Allowed(DefaultWindow, tod)
    ensures Run(Sim, Spent(t0), Edits(tod) + ThirdOrder(t0, tod)) == Trace(Waiting(t0), [], [])
  {
    SimulationEdits(t0, tod);
    SimulationThirdOrder(t0, tod);
    RunAppend(Sim, Spent(t0), Edits(tod), ThirdOrder(t0, tod));
  }

  /** A second after the window opened the budget is refreshed and order 3
      goes out. */
  lemma SimulationRefill(t0: int)
    ensures Run(Sim, Waiting(t0), Refill(t0)) == Trace(AfterThird(t0), [New3], [])
  {
    var u := Refill(t0);
    SinglePass(Sim, Waiting(t0), t0 + 1010 * Ms);
    RunCons(Sim, Waiting(t0), u);
    assert u[1..] == [];
  }

  /** The responses for orders 1 and 3 log round trips of 2.99 s and 1.99 s
      and leave only order 2's stamp. */
  lemma SimulationResponses(t0: int)
    requires t0 > 0
    ensures Run(Sim, AfterThird(t0), Responses(t0))
         == Trace(Final(t0), [], [LogLine(1, Accept, 2990 * Ms), LogLine(3, Reject, 1990 * Ms)])
  {
    var u := Responses(t0);
    var s := AfterThird(t0);
    var m := s.sentOrders - {1};
    var s1 := s.(sentOrders := m);
    ResponseStep(Sim, s, OrderResponse(1, Accept), t0 + 3000 * Ms);
    ResponseStep(Sim, s1, OrderResponse(3, Reject), t0 + 3000 * Ms);
    assert m - {3} == map[2 := t0 + 210 * Ms];
    RunCons(Sim, s, u);
    RunCons(Sim, s1, u[1..]);
    assert u[1..][1..] == [];
  }

  /** Order 3 goes out in the next window, and the two round trips are
      logged. */
  lemma SimulationClosing(t0: int)
    requires t0 > 0
    ensures Run(Sim, Waiting(t0), Refill(t0) + Responses(t0))
         == Trace(Final(t0), [New3], [LogLine(1, Accept, 2990 * Ms), LogLine(3, Reject, 1990 * Ms)])
  {
    SimulationRefill(t0);
    SimulationResponses(t0);
    RunAppend(Sim, Waiting(t0), Refill(t0), Responses(t0));
  }

  /** The whole interleaved simulation: orders 1, 2 and 3 all go out,
      unmodified, and two round trips are logged. */
  lemma SimulationInterleaved(t0: int, tod: TimeOfDay)
    requires Allowed(DefaultWindow, tod)
    requires t0 > 0
    ensures var r := Run(Sim, Init(t0), Simulation(t0, tod));
      && r.dispatched == [New1, New2, New3]
      && r.log == [LogLine(1, Accept, 2990 * Ms), LogLine(3, Reject, 1990 * Ms)]
      && r.state.queue == []
      && r.state.sentOrders == map[2 := t0 + 210 * Ms]
  {
    var a := FirstOrder(t0, tod) + SecondOrder(t0, tod);
    var b := Edits(tod) + ThirdOrder(t0, tod);
    var c := Refill(t0) + Responses(t0);
    SimulationOpening(t0, tod);
    SimulationLateEdits(t0, tod);
    SimulationClosing(t0);
    RunAppend(Sim, Init(t0), a, b);
    RunAppend(Sim, Init(t0), a + b, c);
  }
}
