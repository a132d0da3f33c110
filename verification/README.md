# Order-management gateway, modelled in Dafny

This project models the `OrderManagement` class of `order_management.py`. The class is an order gateway. It admits New, Modify and Cancel requests during a daily session window. It keeps the orders not yet sent in a FIFO queue, and a sending thread drains that queue under a per-second budget. Each sent order is stamped with its send time, so that a later response can be matched to it and its round trip logged. A second thread logs the gateway on when the window opens and off when it closes.

The threads, the lock and the sleeps are stripped away. What remains is a set of pure step functions over an explicit state: the pending queue (`seq<OrderRequest>`), the send counter, the start of the current budget window, and the send stamps (`map<int, int>`). Both clocks are parameters:

- the time of day, read by the session checks, is in microseconds since midnight (`Orders.TimeOfDay`);
- the wall clock, read by the sending loop and the response handler, is in integer microsecond ticks (`Orders.TicksPerSecond` = 1 000 000).

So the source's `now - last_reset >= 1` becomes `now - lastReset >= TicksPerSecond`.

Modules, leaves first:

- `Orders`: request and response records, the request and response kinds (including `Unknown`), the clocks, and `Ids`.
- `Session`: the inclusive window check, and the logon/logout state machine of the time-check thread.
- `Store`: the queue rebuild done by Modify and Cancel, and the reference definitions it is proved against. `Without` is the filter that Cancel applies. `Amend` is the position-wise rewrite that Modify applies.
- `Dispatch`: the budget refresh, the quota, and the inner send loop (`Drain`).
- `Correlator`: the pop-and-measure step done for each response.
- `Gateway`: configuration, state, `onData`, one pass of the sending loop, and runs of interleaved inputs with the FIFO and rate-ceiling lemmas.
- `Scenarios`: concrete runs built from the orders of `test_simulation.py`.

Behaviours of the code that the model keeps as they are:

- The sending loop does not consult the session window. Orders queued before the window closes still go out after it has closed.
- Modify rewrites every pending entry with the request's id, and Cancel drops every such entry. Neither stops at the first match. With unique ids this is the same as acting on one entry (`Store.CancelRemovesAtMostOne`).
- Only Modify and Cancel are tested for. A request of kind `Unknown` is queued like a New one, and no duplicate-id check is made.
- `onData` returns nothing. It only prints "rejected" outside the window, and "processed" when a Modify or Cancel found its id. The model returns that outcome as `Gateway.Admission`.
- A response is logged only when the popped stamp is truthy. A stamp equal to 0 is removed but not logged.
- The budget ceiling holds per budget window, meaning from one refresh to the next (`Gateway.RateCeiling`). It does not hold over every sliding one-second interval. Up to twice the budget can go out within one polling interval around a refresh, because the loop sleeps 10 ms between passes (order_management.py:116) (`Scenarios.BurstAroundRefresh`).

## Model

| member | source | states |
|---|---|---|
| Session.Allowed | order_management.py:56-58 | the inclusive window test; its contract is in `Session.AllowedInclusive` and `Session.InvertedWindowNeverOpen` |
| Session.AllowedInclusive | order_management.py:56-58 | both bounds of a well-formed window are inside it, and a window is ever open iff its start is not after its end |
| Session.InvertedWindowNeverOpen | order_management.py:56-58 | a window whose start is after its end is closed at every time of day (no wrap past midnight) |
| Session.CheckTime | order_management.py:64-72 | one time check leaves the flag equal to "inside the window"; it logs on iff inside and logged out, logs off iff outside and logged in, and otherwise sends nothing and keeps the flag |
| Session.Gate | order_management.py:61-73 | the time-check thread run over a sequence of check times; its contract is in `Session.GateFinal`, `Session.GateAlternates` and `Session.LogonFirst` |
| Session.GateFinal | order_management.py:61-73 | after any sequence of checks the flag is what the last notification set, and it agrees with the window at the last check |
| Session.GateAlternates | order_management.py:61-73 | the notifications of any sequence of checks alternate, and the first one undoes the starting state |
| Session.LogonFirst | order_management.py:62-73 | starting logged out, the k-th notification is a logon exactly when k is even |
| Session.DefaultWindowMissesLastMinute | order_management.py:37 | the default window 00:00 to 23:59 rejects 23:59:30 and logs a logged-in gateway off there |
| Session.FullDayWindowAlwaysOpen | test_simulation.py:33-35 | the window ending at 23:59:59.999999 is open at every time of day and never logs off |
| Store.Rebuild | order_management.py:84-97 | draining the queue under a Modify amends every entry of the id in place and under a Cancel drops it, keeping all other entries in order; the found flag is set iff the id was seen |
| Store.Reconcile | order_management.py:83-100 | Cancel leaves exactly `Without(q, id)`; Modify keeps length, order, symbol, side, id and kind of every entry, gives matching entries the request's price and quantity, and leaves the rest untouched; found iff the id was pending; an unknown id leaves the queue identical |
| Store.NoMatchOutcome | order_management.py:84-100 | a Modify or Cancel of an id that is not pending leaves the queue identical |
| Store.WithoutAppend | order_management.py:86-96 | cancelling distributes over concatenation, so the relative order of surviving entries is kept |
| Store.WithoutMembers | order_management.py:86-96 | after a Cancel an entry is present iff it was present with a different id; no entry of the cancelled id remains |
| Store.CancelRemovesAtMostOne | order_management.py:86-96 | with unique ids, a Cancel shortens the queue by one if the id is pending and by none otherwise |
| Dispatch.Quota | order_management.py:111 | the number of sends a pass may make is the remaining budget capped by the queue length, and zero once the budget is spent |
| Dispatch.Drain | order_management.py:111-115 | the inner send loop; its contract is in `Dispatch.DrainSpec`, `Dispatch.DrainCeiling` and `Dispatch.DrainSplitsQueue` |
| Dispatch.DrainSpec | order_management.py:111-115 | `Dispatch.Drain` sends exactly the first Quota entries in FIFO order, leaves the rest queued in order, counts each send, and leaves the stamps of sending that prefix one by one |
| Dispatch.Refresh | order_management.py:106-109 | once a full second has passed since the last refresh the count drops to 0 and the window restarts now, otherwise both are kept; either way the budget window in force began less than a second before now, and its start never moves back |
| Dispatch.DrainCeiling | order_management.py:111-115 | a pass never lifts the count over the budget, and a spent budget sends nothing |
| Dispatch.DrainSplitsQueue | order_management.py:111-112 | the orders sent followed by the orders left are the queue as it was |
| Dispatch.StampAllStamped | order_management.py:114 | stamping the sent orders one by one gives every sent id the pass's time, keeps every other stamp, and adds no other id |
| Correlator.Correlate | order_management.py:118-122 | a response removes its id from the stamps and keeps every other key; a log line with latency `now - stamp` is produced iff the id was stamped with a non-zero time; an absent id changes nothing |
| Correlator.DuplicateUnmatched | order_management.py:119-120 | a second response for the same id logs nothing and changes nothing |
| Gateway.OnData | order_management.py:76-102 | outside the window nothing changes whatever the kind; New and Unknown requests are appended at the tail; Cancel and Modify rewrite the queue as `Without`/`Amend`, are not queued themselves, report whether the id was pending, and leave counter, window start and stamps alone |
| Gateway.SendCycle | order_management.py:104-116 | one pass of the sending loop; its contract is in `Gateway.SendCycleSpec` |
| Gateway.SendCycleSpec | order_management.py:104-116 | `Gateway.SendCycle` refreshes the budget window after a full second, then sends the first Quota entries, keeps the rest in order, counts and stamps what it sent, and keeps the count within a non-negative budget |
| Gateway.AdmitStep | order_management.py:101-102 | inside the window a request that is neither Modify nor Cancel is appended and nothing else changes |
| Gateway.EditMissStep | order_management.py:83-100 | a Modify or Cancel of an id that is not pending leaves the whole gateway state as it was |
| Gateway.SpentPass | order_management.py:106-111 | a pass inside a budget window that is already spent sends nothing and changes nothing |
| Gateway.SinglePass | order_management.py:106-115 | a pass with one order pending and budget left sends it, counts it, and stamps its id with the pass's clock |
| Gateway.ResponseStep | order_management.py:118-122 | a response to an order stamped with a non-zero time logs the round trip from that stamp and drops it |
| Gateway.Step | order_management.py:76-122 | one input: a request to `onData`, a response to `onDataResponse`, or a pass of the sending loop; a request step has the contract of `Gateway.OnData`, a response step that of `Correlator.Correlate`, and a poll step that of `Gateway.SendCycleSpec`; `Gateway.AdmitStep`, `Gateway.EditMissStep`, `Gateway.SpentPass`, `Gateway.SinglePass` and `Gateway.ResponseStep` are special cases |
| Gateway.Run | order_management.py:76-122 | any interleaving of inputs; its contract is in `Gateway.RateCeiling`, `Gateway.FifoDispatch` and `Gateway.FreshGateway` |
| Gateway.Init | order_management.py:37-45 | the state a new gateway starts in; its contract is in `Gateway.FreshGateway` |
| Gateway.RateCeiling | order_management.py:106-115 | until a second has passed since the window opened, no interleaving of requests, responses and passes sends more than the budget left, and the count equals the sends made |
| Gateway.FifoDispatch | order_management.py:101-112 | without Modify or Cancel, everything sent followed by what is still pending equals the initial queue followed by the admitted requests in arrival order |
| Gateway.FreshGateway | order_management.py:37-45 | a new gateway has nothing pending, counted or stamped, so in its first second any interleaving sends at most the budget with the count equal to the sends; without Modify or Cancel, what was sent followed by what is pending is exactly the admitted requests in arrival order |
| Gateway.SendThenRespond | order_management.py:112-122 | a response to an order sent at a non-zero clock t0 logs the round trip t1 - t0 and consumes the stamp |
| Scenarios.BatchedQueue | test_simulation.py:12-21 | admitting the five requests in order leaves order 1 with price 99.50 and quantity 15, then order 3; order 2 is gone |
| Scenarios.SimulationBatched | test_simulation.py:12-21 | with all five requests admitted before the first pass and a budget of 2, the pass sends the modified order 1, then order 3; order 2 never goes out |
| Scenarios.BurstOpening | order_management.py:106-115 | five queued orders under a budget of 2: two go out at once and none half a second later, three stay queued |
| Scenarios.BurstRefill | order_management.py:106-115 | once the second is over the three left go out two at once and the last a second after that, emptying the queue |
| Scenarios.BurstAroundRefresh | order_management.py:106-116 | four queued orders under a budget of 2 all go out in two consecutive passes 10 ms apart, 5 ms either side of a refresh: the ceiling holds per budget window, not per sliding second |
| Scenarios.SimulationEdits | test_simulation.py:15-16 | when orders 1 and 2 are already sent, the Modify and the Cancel find nothing pending and change nothing |
| Scenarios.SimulationThirdOrder | test_simulation.py:17 | order 3 is queued but waits on the spent budget |
| Scenarios.SimulationRefill | order_management.py:106-115 | a second after the window opened the budget is refreshed and order 3 goes out |
| Scenarios.SimulationResponses | test_simulation.py:24-30 | the responses for orders 1 and 3 log round trips of 2.99 s and 1.99 s and leave only order 2's stamp |
| Scenarios.SimulationInterleaved | test_simulation.py:20-30 | with the sending loop polling between requests, orders 1, 2 and 3 all go out unmodified and two round trips are logged |

## Left out

- Threads, `threading.Lock`, the daemon loops and `time.sleep` (order_management.py:47-49, 60-74, 104-116) are left out, because they are scheduling. Each loop body is one pure step, and `Gateway.Run` interleaves steps in any order.
- `sent_orders` is shared by two threads: the sending thread writes it under the lock (order_management.py:114), and `onDataResponse` pops from it without the lock (line 119). Here each step runs to completion, so a pop that overlaps a send is not modelled.
- `time.time()` and `datetime.now()` are replaced by integer parameters. One pass uses a single clock value. The source reads the clock again for each send at line 114, after taking the lock at line 110, while the refresh clock is read at line 106 before it. Its stamps therefore lag the pass's clock: by a few microseconds from one send to the next, and by however long an `onData` rebuild holds the lock (lines 81-100). So the `t1 - t0` of `Gateway.SendThenRespond` measures from the pass's clock, not from the real send time.
- Prices are `float` in the source. Here they are integers in hundredths and are only copied. Latency is an integer number of microseconds. The `{latency:.6f}` formatting is not modelled.
- `log_response` appends to a file (lines 124-126). The model returns the `Correlator.LogLine` instead.
- `send`, `sendLogon` and `sendLogout` only print (lines 128-135). The model returns the sent orders and the `Session.Event`s.
- The messages printed at lines 78 and 99 are returned as `Gateway.Admission`.
- The `Queue` object swap at lines 85-97 is modelled as rebuilding a sequence.
- The aliasing of a queued request with the caller's object is not modelled. In the source, Modify mutates that same object.
- The constructor at lines 37-49 is modelled by `Gateway.Init` and `Gateway.DefaultConfig`. Starting its threads is left out.
- test_simulation.py is a threaded driver with sleeps. Only its orders and its timing are used, as the inputs of `Scenarios`.

## Findings

| source | as written | input that shows it | evidently intended | confidence | as-written member | corrected member |
|---|---|---|---|---|---|---|
| order_management.py:37 | default `end_time=dtime(23, 59)`, also passed by test_simulation.py:35 under the comment "Allow 24x7" | time of day 23:59:30: the request is rejected and a logged-in gateway logs off | a window covering the whole day, up to 23:59:59.999999 | medium, not executed | Session.DefaultWindowMissesLastMinute | Session.FullDayWindowAlwaysOpen |

The scenarios run under the window test_simulation.py:35 passes, `Session.DefaultWindow`, and each of their requests arrives at a time of day inside it.
