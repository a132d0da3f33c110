/** The pending-order store: reconciliation of Modify and Cancel requests
    against the queue of orders not yet sent. */
module Store {
  import opened Orders

  /** The pending queue with every entry of order id `id` removed, relative
      order kept. */
  function Without(q: seq<OrderRequest>, id: int): seq<OrderRequest> {
    if |q| == 0 then []
    else (if q[0].orderId == id then [] else [q[0]]) + Without(q[1..], id)
  }

  /** `e` carrying the price and quantity of the modify request `req`. */
  function Amended(e: OrderRequest, req: OrderRequest): OrderRequest {
    e.(price := req.price, qty := req.qty)
  }

  /** The pending queue with every entry of `req`'s order id amended, position
      by position. */
  function Amend(q: seq<OrderRequest>, req: OrderRequest): seq<OrderRequest> {
    seq(|q|, i requires 0 <= i < |q| => if q[i].orderId == req.orderId then Amended(q[i], req) else q[i])
  }

  /** What the rebuild leaves for the remaining queue `pending` under the
      reconciling request `req`. */
  function Outcome(pending: seq<OrderRequest>, req: OrderRequest): seq<OrderRequest> {
    if req.requestType == Modify then Amend(pending, req) else Without(pending, req.orderId)
  }

  lemma OutcomeCons(e: OrderRequest, pending: seq<OrderRequest>, req: OrderRequest)
    ensures Outcome([e] + pending, req)
         == (if e.orderId != req.orderId then [e]
             else if req.requestType == Modify then [Amended(e, req)]
             else [])
            + Outcome(pending, req)
  {
    var q := [e] + pending;
    assert q[1..] == pending;
    if req.requestType == Modify {
      var head := if e.orderId == req.orderId then Amended(e, req) else e;
      assert Amend(q, req) == [head] + Amend(pending, req);
    }
  }

  /** The new queue after the entry `e` has been handled: a match is
      amended by a Modify and dropped otherwise; any other entry is carried
      over unchanged. */
  function Carry(acc: seq<OrderRequest>, e: OrderRequest, req: OrderRequest): seq<OrderRequest> {
    if e.orderId != req.orderId then acc + [e]
    else if req.requestType == Modify then acc + [Amended(e, req)]
    else acc
  }

  /** Handling the front entry moves it from what is left to do into what
      has been built, and a match is seen in the queue exactly when it is
      the front entry or further back. */
  lemma RebuildStep(pending: seq<OrderRequest>, req: OrderRequest, acc: seq<OrderRequest>)
    requires |pending| > 0
    ensures Carry(acc, pending[0], req) + Outcome(pending[1..], req) == acc + Outcome(pending, req)
    ensures req.orderId in Ids(pending) <==> pending[0].orderId == req.orderId || req.orderId in Ids(pending[1..])
  {
    var e := pending[0];
    OutcomeCons(e, pending[1..], req);
    IdsCons(e, pending[1..]);
    assert [e] + pending[1..] == pending;
  }

  /** The queue-draining loop of a Modify or Cancel request: `acc` is the
      new queue built so far and `found` whether a matching entry was seen.
      Matching entries are amended in place by a Modify and dropped by any
      other reconciling kind; the rest are carried over unchanged. */
  function Rebuild(pending: seq<OrderRequest>, req: OrderRequest, acc: seq<OrderRequest>, found: bool)
    : (r: (seq<OrderRequest>, bool))
    ensures r.0 == acc + Outcome(pending, req)
    ensures r.1 == (found || req.orderId in Ids(pending))
    decreases |pending|
  {
    if |pending| == 0 then (acc, found)
    else
      var e := pending[0];
      RebuildStep(pending, req, acc);
      Rebuild(pending[1..], req, Carry(acc, e, req), found || e.orderId == req.orderId)
  }

  /** The pending queue after the Modify or Cancel `req`, and whether an
      entry with its order id was pending. The request itself is never
      queued. */
  function Reconcile(q: seq<OrderRequest>, req: OrderRequest): (r: (seq<OrderRequest>, bool))
    requires Reconciles(req.requestType)
    ensures r.1 <==> req.orderId in Ids(q)
    ensures req.requestType == Cancel ==> r.0 == Without(q, req.orderId)
    ensures req.requestType == Modify ==>
      && |r.0| == |q|
      && forall i :: 0 <= i < |q| ==>
           && r.0[i].orderId == q[i].orderId
           && r.0[i].symbolId == q[i].symbolId
           && r.0[i].side == q[i].side
           && r.0[i].requestType == q[i].requestType
           && (q[i].orderId == req.orderId ==> r.0[i].price == req.price && r.0[i].qty == req.qty)
           && (q[i].orderId != req.orderId ==> r.0[i] == q[i])
    ensures req.orderId !in Ids(q) ==> r.0 == q
  {
    NoMatchOutcome(q, req);
    Rebuild(q, req, [], false)
  }

  /** A Modify or Cancel of an id that is not pending changes nothing. */
  lemma {:induction false} NoMatchOutcome(q: seq<OrderRequest>, req: OrderRequest)
    ensures req.orderId !in Ids(q) ==> Outcome(q, req) == q
    decreases |q|
  {
    if |q| > 0 && req.orderId !in Ids(q) {
      IdsCons(q[0], q[1..]);
      assert [q[0]] + q[1..] == q;
      NoMatchOutcome(q[1..], req);
      OutcomeCons(q[0], q[1..], req);
    }
  }

  /** Cancelling keeps relative order: removing an id from a concatenation
      removes it from each part. */
  lemma {:induction false} WithoutAppend(a: seq<OrderRequest>, b: seq<OrderRequest>, id: int)
    ensures Without(a + b, id) == Without(a, id) + Without(b, id)
    decreases |a|
  {
    if |a| > 0 {
      assert (a + b)[1..] == a[1..] + b;
      WithoutAppend(a[1..], b, id);
    } else {
      assert a + b == b;
    }
  }

  /** Cancelling removes exactly the entries of the cancelled id: every
      other entry survives untouched, and no entry of that id is left. */
  lemma {:induction false} WithoutMembers(q: seq<OrderRequest>, id: int)
    ensures forall e :: e in Without(q, id) <==> e in q && e.orderId != id
    ensures id !in Ids(Without(q, id))
    ensures |Without(q, id)| <= |q|
    decreases |q|
  {
    if |q| > 0 {
      WithoutMembers(q[1..], id);
      var head := if q[0].orderId == id then [] else [q[0]];
      IdsCons(q[0], Without(q[1..], id));
      assert q == [q[0]] + q[1..];
      forall e ensures e in Without(q, id) <==> e in q && e.orderId != id {
        assert e in Without(q, id) <==> e in head || e in Without(q[1..], id);
        assert e in q <==> e == q[0] || e in q[1..];
      }
    }
  }

  /** Order ids are unique among pending entries. */
  predicate UniqueIds(q: seq<OrderRequest>) {
    forall i, j :: 0 <= i < j < |q| ==> q[i].orderId != q[j].orderId
  }

  lemma {:induction false} WithoutNoMatch(q: seq<OrderRequest>, id: int)
    ensures id !in Ids(q) ==> Without(q, id) == q
    decreases |q|
  {
    if |q| > 0 && id !in Ids(q) {
      IdsCons(q[0], q[1..]);
      assert [q[0]] + q[1..] == q;
      WithoutNoMatch(q[1..], id);
    }
  }

  /** While ids are unique among pending entries, a Cancel removes exactly
      one entry when its id is pending and none otherwise. */
  lemma {:induction false} CancelRemovesAtMostOne(q: seq<OrderRequest>, id: int)
    requires UniqueIds(q)
    ensures |Without(q, id)| == |q| - (if id in Ids(q) then 1 else 0)
    decreases |q|
  {
    if |q| > 0 {
      IdsCons(q[0], q[1..]);
      assert [q[0]] + q[1..] == q;
      assert UniqueIds(q[1..]) by {
        forall i, j | 0 <= i < j < |q[1..]| ensures q[1..][i].orderId != q[1..][j].orderId {
          assert q[1..][i] == q[i + 1] && q[1..][j] == q[j + 1];
        }
      }
      if q[0].orderId == id {
        forall j | 0 <= j < |q[1..]| ensures q[1..][j].orderId != id {
          assert q[1..][j] == q[j + 1];
        }
        WithoutNoMatch(q[1..], id);
      } else {
        CancelRemovesAtMostOne(q[1..], id);
      }
    }
  }
}
