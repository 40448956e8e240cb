/**
 The payment orders of one sender over all of the sender's requests. A payment
 names its request and its order; the order is looked up by its id alone.
 */
module PaymentOrders {
  import opened Common
  import opened Payments

  datatype Request = Request(charge: Option<int>, orderId: Option<nat>, paid: bool, weightCharge: int)

  /** A payment that went through: the request, the place of its order, and the charge a hold for it takes. */
  datatype Receipt = Receipt(request: nat, order: nat, held: int)

  datatype Desk = Desk(requests: seq<Request>, orders: seq<Order>, receipts: seq<Receipt>)

  datatype Call =
    | MakeOrder(r: nat, newId: nat) // `createDeliveryOrder`
    | Pay(r: nat, orderId: nat)     // `confirmDeliveryPayment`, with a good signature

  predicate GoesThrough(d: Desk, r: nat, orderId: nat) {
    r < |d.requests| && !d.requests[r].paid && HasOrder(d.orders, orderId)
  }

  function Answer(d: Desk, call: Call): Desk {
    match call
    case MakeOrder(r, newId) =>
      if r < |d.requests| && d.requests[r].orderId.None? then
        var amount := OrElse(d.requests[r].charge, d.requests[r].weightCharge);
        Desk(d.requests[r := d.requests[r].(charge := Some(amount), orderId := Some(newId))],
             d.orders + [Order(newId, amount, false)], d.receipts)
      else d
    case Pay(r, orderId) =>
      if GoesThrough(d, r, orderId) then
        var k := FindOrder(d.orders, orderId);
        Desk(d.requests[r := d.requests[r].(paid := true)], d.orders[k := d.orders[k].(completed := true)],
             d.receipts + [Receipt(r, k, OrElse(d.requests[r].charge, d.orders[k].amount))])
      else d
  }

  function Serve(d: Desk, calls: seq<Call>): Desk
    decreases |calls|
  {
    if calls == [] then d else Serve(Answer(d, calls[0]), calls[1..])
  }

  predicate Fresh(d: Desk) {
    d.orders == [] && d.receipts == [] && forall x <- d.requests :: x.orderId.None? && !x.paid && x.weightCharge > 0
  }

  /** Ids are new when made; with `ownOnly`, a request is paid with its own order. */
  predicate Admitted(d: Desk, call: Call, ownOnly: bool) {
    match call
    case MakeOrder(_, newId) => !HasOrder(d.orders, newId)
    case Pay(r, orderId) => ownOnly && GoesThrough(d, r, orderId) ==> d.requests[r].orderId == Some(orderId)
  }

  predicate AllAdmitted(d: Desk, calls: seq<Call>, ownOnly: bool)
    decreases |calls|
  {
    calls == [] || (Admitted(d, calls[0], ownOnly) && AllAdmitted(Answer(d, calls[0]), calls[1..], ownOnly))
  }

  // ---------------------------------------------------------------- what a receipt should mean

  /** No order pays twice. */
  predicate PaysOnce(d: Desk) {
    forall i, j :: 0 <= i < j < |d.receipts| ==> d.receipts[i].order != d.receipts[j].order
  }

  /** What is held for a payment is what was paid. */
  predicate HeldIsPaid(d: Desk) {
    forall x <- d.receipts :: x.order < |d.orders| && d.orders[x.order].amount == x.held
  }

  // ---------------------------------------------------------------- paying with one's own order

  /** The request's order is listed, for the request's charge. */
  predicate Ordered(d: Desk, r: nat, k: nat)
    requires r < |d.requests| && k < |d.orders|
  {
    d.requests[r].orderId == Some(d.orders[k].id) && d.requests[r].charge == Some(d.orders[k].amount) && d.orders[k].amount != 0
  }

  ghost predicate RequestOk(d: Desk, r: nat)
    requires r < |d.requests|
  {
    && d.requests[r].weightCharge > 0
    && (d.requests[r].orderId.Some? ==> exists k :: 0 <= k < |d.orders| && Ordered(d, r, k))
  }

  predicate ReceiptOk(d: Desk, x: Receipt) {
    && x.request < |d.requests| && d.requests[x.request].paid
    && x.order < |d.orders| && Ordered(d, x.request, x.order) && d.orders[x.order].amount == x.held
  }

  ghost predicate Inv(d: Desk) {
    && (forall i, j :: 0 <= i < j < |d.orders| ==> d.orders[i].id != d.orders[j].id)
    && (forall q, r :: 0 <= q < r < |d.requests| && d.requests[q].orderId.Some? ==> d.requests[q].orderId != d.requests[r].orderId)
    && (forall r :: 0 <= r < |d.requests| ==> RequestOk(d, r))
    && (forall i :: 0 <= i < |d.receipts| ==> ReceiptOk(d, d.receipts[i]))
    && (forall i, j :: 0 <= i < j < |d.receipts| ==> d.receipts[i].request != d.receipts[j].request)
  }

  lemma OrderKeeps(d: Desk, r: nat, newId: nat)
    requires Inv(d) && !HasOrder(d.orders, newId)
    ensures Inv(Answer(d, MakeOrder(r, newId)))
  {
    var after := Answer(d, MakeOrder(r, newId));
    if after != d {
      forall q | 0 <= q < |d.requests| && q != r ensures after.requests[q].orderId != Some(newId) {
        assert RequestOk(d, q);
      }
      forall q | 0 <= q < |after.requests| ensures RequestOk(after, q) {
        assert RequestOk(d, q);
        if q == r {
          assert Ordered(after, r, |d.orders|);
        } else if after.requests[q].orderId.Some? {
          var k :| 0 <= k < |d.orders| && Ordered(d, q, k);
          assert Ordered(after, q, k);
        }
      }
      forall i | 0 <= i < |after.receipts| ensures ReceiptOk(after, after.receipts[i]) {
        assert ReceiptOk(d, d.receipts[i]);
      }
    }
  }

  lemma PayKeeps(d: Desk, r: nat, orderId: nat)
    requires Inv(d) && Admitted(d, Pay(r, orderId), true)
    ensures Inv(Answer(d, Pay(r, orderId)))
  {
    var after := Answer(d, Pay(r, orderId));
    if GoesThrough(d, r, orderId) {
      var k := FindOrder(d.orders, orderId);
      assert RequestOk(d, r);
      var own :| 0 <= own < |d.orders| && Ordered(d, r, own);
      assert own == k;
      forall q | 0 <= q < |after.requests| ensures RequestOk(after, q) {
        assert RequestOk(d, q);
        if after.requests[q].orderId.Some? {
          var j :| 0 <= j < |d.orders| && Ordered(d, q, j);
          assert Ordered(after, q, j);
        }
      }
      forall i | 0 <= i < |after.receipts| ensures ReceiptOk(after, after.receipts[i]) {
        if i < |d.receipts| { assert ReceiptOk(d, d.receipts[i]); }
      }
      forall i | 0 <= i < |d.receipts| ensures d.receipts[i].request != r {
        assert ReceiptOk(d, d.receipts[i]);
      }
    }
  }

  lemma {:induction false} ServeKeeps(d: Desk, calls: seq<Call>)
    requires Inv(d) && AllAdmitted(d, calls, true)
    ensures Inv(Serve(d, calls))
    decreases |calls|
  {
    if calls != [] {
      match calls[0] {
        case MakeOrder(r, newId) => OrderKeeps(d, r, newId);
        case Pay(r, orderId) => PayKeeps(d, r, orderId);
      }
      ServeKeeps(Answer(d, calls[0]), calls[1..]);
    }
  }

  lemma InvMeans(d: Desk)
    requires Inv(d)
    ensures PaysOnce(d) && HeldIsPaid(d)
  {
    forall i, j | 0 <= i < j < |d.receipts| ensures d.receipts[i].order != d.receipts[j].order {
      assert ReceiptOk(d, d.receipts[i]) && ReceiptOk(d, d.receipts[j]);
    }
  }

  // ---------------------------------------------------------------- paying with another request's order

  /** Two requests, for one rupee and for five hundred, and the order of the first. */
  function TwoRequests(ordered: bool, paid: nat): Desk {
    Desk([Request(Some(100), if ordered then Some(7) else None, paid >= 1, 100), Request(Some(50000), None, paid >= 2, 100)],
         if ordered then [Order(7, 100, paid >= 1)] else [],
         if paid == 0 then [] else if paid == 1 then [Receipt(0, 0, 100)] else [Receipt(0, 0, 100), Receipt(1, 0, 50000)])
  }

  lemma OnlyOrder(completed: bool)
    ensures HasOrder([Order(7, 100, completed)], 7) && FindOrder([Order(7, 100, completed)], 7) == 0
  {
    assert [Order(7, 100, completed)][0].id == 7;
  }

  lemma ThreeCalls(d: Desk, x: Call, y: Call, z: Call, ownOnly: bool)
    requires Admitted(d, x, ownOnly) && Admitted(Answer(d, x), y, ownOnly) && Admitted(Answer(Answer(d, x), y), z, ownOnly)
    ensures Serve(d, [x, y, z]) == Answer(Answer(Answer(d, x), y), z)
    ensures AllAdmitted(d, [x, y, z], ownOnly)
  {
    var none: seq<Call> := [];
    var d1 := Answer(d, x);
    var d2 := Answer(d1, y);
    assert [x, y, z][1..] == [y, z] && [y, z][1..] == [z] && [z][1..] == none;
    assert AllAdmitted(d2, [z], ownOnly) && Serve(d2, [z]) == Serve(Answer(d2, z), none);
    assert AllAdmitted(d1, [y, z], ownOnly) && Serve(d1, [y, z]) == Serve(d2, [z]);
  }

  lemma TwiceAnswers()
    ensures Answer(TwoRequests(false, 0), MakeOrder(0, 7)) == TwoRequests(true, 0)
    ensures Answer(TwoRequests(true, 0), Pay(0, 7)) == TwoRequests(true, 1)
    ensures Answer(TwoRequests(true, 1), Pay(1, 7)) == TwoRequests(true, 2)
  {
    OnlyOrder(false);
    OnlyOrder(true);
  }

  /** The same order pays for both, and five hundred rupees are held for one. */
  lemma OneOrderPaysTwice() returns (calls: seq<Call>)
    ensures Fresh(TwoRequests(false, 0)) && AllAdmitted(TwoRequests(false, 0), calls, false)
    ensures !PaysOnce(Serve(TwoRequests(false, 0), calls)) && !HeldIsPaid(Serve(TwoRequests(false, 0), calls))
  {
    calls := [MakeOrder(0, 7), Pay(0, 7), Pay(1, 7)];
    TwiceAnswers();
    ThreeCalls(TwoRequests(false, 0), calls[0], calls[1], calls[2], false);
    var end := TwoRequests(true, 2);
    assert end.receipts[1] in end.receipts;
  }

  /**
   Whatever is ordered and paid, an order pays for one request only, and what is
   held for a payment is what was paid, if and only if requests are paid with
   their own orders.
   */
  lemma OwnOrdersIff(ownOnly: bool)
    ensures (forall d: Desk, calls: seq<Call> :: Fresh(d) && AllAdmitted(d, calls, ownOnly) ==> PaysOnce(Serve(d, calls))) <==> ownOnly
    ensures (forall d: Desk, calls: seq<Call> :: Fresh(d) && AllAdmitted(d, calls, ownOnly) ==> HeldIsPaid(Serve(d, calls))) <==> ownOnly
  {
    if ownOnly {
      forall d: Desk, calls: seq<Call> | Fresh(d) && AllAdmitted(d, calls, ownOnly)
        ensures PaysOnce(Serve(d, calls)) && HeldIsPaid(Serve(d, calls))
      {
        ServeKeeps(d, calls);
        InvMeans(Serve(d, calls));
      }
    } else {
      var calls := OneOrderPaysTwice();
      var d := TwoRequests(false, 0);
      assert Fresh(d) && AllAdmitted(d, calls, ownOnly) && !PaysOnce(Serve(d, calls)) && !HeldIsPaid(Serve(d, calls));
    }
  }
}
