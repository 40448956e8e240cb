/**
 Confirming a match and paying for the request, in either order and repeated:
 the sender's money is held once. One request with one match; the sender's
 payment orders are a list in which other requests' orders may also appear.
 */
module Payments {
  import opened Common
  import opened MatchStates

  datatype Order = Order(id: nat, amount: int, completed: bool)

  datatype State = State(status: Status, payment: Payment, requestMatched: bool, totalCharge: Option<int>,
                         orderId: Option<nat>, orders: seq<Order>, holds: seq<int>)

  /** What does not change: the match's price, and the fallback charge computed from the weight. */
  datatype Terms = Terms(agreedPrice: int, weightCharge: int)

  datatype Op =
    | CarrierAccept
    | CreateOrder(newId: nat)
    | OtherOrder(id: nat, amount: int)
    | SenderConfirm
    | ConfirmPayment(orderId: nat, signatureOk: bool)

  predicate HasOrder(orders: seq<Order>, id: nat) {
    exists k :: 0 <= k < |orders| && orders[k].id == id
  }

  function FindOrder(orders: seq<Order>, id: nat): nat
    requires HasOrder(orders, id)
    ensures FindOrder(orders, id) < |orders| && orders[FindOrder(orders, id)].id == id
  {
    if orders[0].id == id then 0
    else
      assert exists k :: 0 <= k < |orders[1..]| && orders[1..][k].id == id by {
        var k :| 0 <= k < |orders| && orders[k].id == id;
        assert orders[1..][k - 1] == orders[k];
      }
      1 + FindOrder(orders[1..], id)
  }

  /** A hold is made only when the match has none yet. */
  function HoldOnce(holds: seq<int>, amount: int): seq<int> {
    if holds == [] then [amount] else holds
  }

  // ---------------------------------------------------------------- the operations as functions

  function AfterCreateOrder(t: Terms, s: State, newId: nat): State {
    if s.orderId.Some? && (s.payment == Paid || s.payment == Unpaid) then s
    else
      var amount := OrElse(s.totalCharge, t.weightCharge);
      s.(orderId := Some(newId), totalCharge := Some(amount), orders := s.orders + [Order(newId, amount, false)])
  }

  /** `senderConfirm` with nothing in between. */
  function AfterConfirm(t: Terms, s: State): State {
    if s.status != CarrierAccepted then s
    else if s.payment == Paid then
      s.(status := Active, holds := HoldOnce(s.holds, OrElse(s.totalCharge, t.agreedPrice)), requestMatched := true)
    else s.(status := SenderConfirmed, requestMatched := true)
  }

  predicate PaymentGoesThrough(s: State, orderId: nat, signatureOk: bool) {
    signatureOk && HasOrder(s.orders, orderId)
  }

  /** `confirmDeliveryPayment` with nothing in between. */
  function AfterPay(s: State, orderId: nat, signatureOk: bool): State {
    if s.payment == Paid || !PaymentGoesThrough(s, orderId, signatureOk) then s
    else
      var k := FindOrder(s.orders, orderId);
      s.(orders := s.orders[k := s.orders[k].(completed := true)], payment := Paid,
         holds := if s.requestMatched then HoldOnce(s.holds, OrElse(s.totalCharge, s.orders[k].amount)) else s.holds)
  }

  function Apply(t: Terms, s: State, op: Op): State {
    match op
    case CarrierAccept => if s.status == Proposed then s.(status := CarrierAccepted) else s
    case CreateOrder(newId) => AfterCreateOrder(t, s, newId)
    case OtherOrder(id, amount) => s.(orders := s.orders + [Order(id, amount, false)])
    case SenderConfirm => AfterConfirm(t, s)
    case ConfirmPayment(orderId, ok) => AfterPay(s, orderId, ok)
  }

  function Run(t: Terms, s: State, ops: seq<Op>): State
    decreases |ops|
  {
    if ops == [] then s else Run(t, Apply(t, s, ops[0]), ops[1..])
  }

  /** Confirming matched the request, paying marked it paid, and the two together made the hold. */
  predicate HoldsAgree(s: State) {
    && s.payment != Refunded
    && |s.holds| <= 1
    && (|s.holds| == 1 <==> s.requestMatched && s.payment == Paid)
    && (s.requestMatched ==> s.status == SenderConfirmed || s.status == Active)
  }

  /** An ordered request has its charge, a paid one was ordered, and what is held is the charge. */
  predicate ChargeAgrees(s: State) {
    && HoldsAgree(s)
    && (s.payment == Paid ==> s.orderId.Some?)
    && (s.orderId.Some? ==> s.totalCharge.Some? && s.totalCharge.value != 0)
    && (|s.holds| == 1 ==> s.totalCharge == Some(s.holds[0]))
  }

  // ---------------------------------------------------------------- as they run

  class PaymentDesk {
    const terms: Terms
    var status: Status
    var payment: Payment
    var requestMatched: bool
    var totalCharge: Option<int>
    var orderId: Option<nat>
    var orders: seq<Order>
    var holds: seq<int>

    function At(): State
      reads this
    {
      State(status, payment, requestMatched, totalCharge, orderId, orders, holds)
    }

    constructor (terms: Terms, totalCharge: Option<int>)
      ensures this.terms == terms && At() == State(Proposed, Unpaid, false, totalCharge, None, [], [])
      ensures ChargeAgrees(At())
    {
      this.terms, this.totalCharge := terms, totalCharge;
      status, payment, requestMatched := Proposed, Unpaid, false;
      orderId, orders, holds := None, [], [];
    }

    method HoldFunds(amount: int)
      modifies this`holds
      ensures holds == old(holds) + [amount]
    {
      holds := holds + [amount];
    }

    method CreateDeliveryOrder(newId: nat) returns (charged: Option<int>)
      modifies this
      ensures At() == AfterCreateOrder(terms, old(At()), newId)
      ensures old(orderId).Some? && old(payment) != Refunded ==> At() == old(At())
      ensures old(orderId).None? || old(payment) == Refunded ==>
                var amount := if old(totalCharge).Some? && old(totalCharge).value != 0 then old(totalCharge).value else terms.weightCharge;
                orderId == Some(newId) && totalCharge == Some(amount) && orders == old(orders) + [Order(newId, amount, false)]
      ensures status == old(status) && payment == old(payment) && requestMatched == old(requestMatched) && holds == old(holds)
      ensures charged == totalCharge
    {
      if payment == Paid && orderId.Some? {
        return totalCharge;
      }
      if orderId.Some? && payment == Unpaid {
        return totalCharge;
      }
      var amount := OrElse(totalCharge, terms.weightCharge);
      orderId := Some(newId);
      totalCharge := Some(amount);
      orders := orders + [Order(newId, amount, false)];
      charged := totalCharge;
    }

    method SenderConfirm() returns (ok: bool)
      modifies this
      ensures ok <==> old(status) == CarrierAccepted
      ensures !ok ==> At() == old(At())
      ensures ok ==> requestMatched && status == if old(payment) == Paid then Active else SenderConfirmed
      ensures ok ==> holds == if old(payment) != Paid || old(holds) != [] then old(holds)
                              else [if totalCharge.Some? && totalCharge.value != 0 then totalCharge.value else terms.agreedPrice]
      ensures payment == old(payment) && totalCharge == old(totalCharge) && orderId == old(orderId) && orders == old(orders)
      ensures At() == Apply(terms, old(At()), Op.SenderConfirm)
    {
      if status != CarrierAccepted {
        return false;
      }
      status := if payment == Paid then Active else SenderConfirmed;
      if payment == Paid {
        if holds == [] {
          HoldFunds(OrElse(totalCharge, terms.agreedPrice));
        }
      }
      requestMatched := true;
      ok := true;
    }

    method ConfirmDeliveryPayment(order: nat, signatureOk: bool) returns (ok: bool)
      modifies this
      ensures ok <==> signatureOk && (old(payment) == Paid || exists k :: 0 <= k < |old(orders)| && old(orders)[k].id == order)
      ensures !ok || old(payment) == Paid ==> At() == old(At())
      ensures ok && old(payment) != Paid ==>
                && payment == Paid
                && exists k ::
                     && 0 <= k < |old(orders)| && old(orders)[k].id == order
                     && orders == old(orders)[k := Order(order, old(orders)[k].amount, true)]
                     && holds == if !requestMatched || old(holds) != [] then old(holds)
                                 else [if totalCharge.Some? && totalCharge.value != 0 then totalCharge.value else old(orders)[k].amount]
      ensures status == old(status) && requestMatched == old(requestMatched) && totalCharge == old(totalCharge) && orderId == old(orderId)
      ensures At() == Apply(terms, old(At()), ConfirmPayment(order, signatureOk))
    {
      if !signatureOk {
        return false;
      }
      if payment == Paid {
        return true;
      }
      if !HasOrder(orders, order) {
        return false;
      }
      var k := FindOrder(orders, order);
      var amount := orders[k].amount;
      orders := orders[k := orders[k].(completed := true)];
      payment := Paid;
      if requestMatched {
        if holds == [] {
          HoldFunds(OrElse(totalCharge, amount));
        }
      }
      ok := true;
    }
  }

  // ---------------------------------------------------------------- one hold

  /**
   Any mix of the two calls, repeated and with orders made in between, leaves at
   most one hold, and exactly one once both have succeeded.
   */
  lemma {:induction false} OneHold(t: Terms, s: State, ops: seq<Op>)
    requires HoldsAgree(s)
    ensures var after := Run(t, s, ops);
            HoldsAgree(after) && (after.requestMatched && after.payment == Paid <==> |after.holds| == 1)
    ensures s.holds != [] ==> Run(t, s, ops).holds == s.holds
    decreases |ops|
  {
    if ops != [] {
      OneHold(t, Apply(t, s, ops[0]), ops[1..]);
    }
  }

  /** What is held, if anything, is the charge. */
  predicate HeldIsCharge(s: State) {
    s.holds != [] ==> s.totalCharge == Some(s.holds[0])
  }

  predicate HasCharge(s: State) {
    s.totalCharge.Some? && s.totalCharge.value != 0
  }

  /** A charge stored at creation is never changed, and is what is held, whichever order is paid and whenever. */
  lemma {:induction false} StoredChargeHeld(t: Terms, s: State, ops: seq<Op>)
    requires HasCharge(s) && HeldIsCharge(s)
    ensures Run(t, s, ops).totalCharge == s.totalCharge && HeldIsCharge(Run(t, s, ops))
    decreases |ops|
  {
    if ops != [] {
      StoredChargeHeld(t, Apply(t, s, ops[0]), ops[1..]);
    }
  }

  function MaxId(orders: seq<Order>): nat {
    if orders == [] then 0 else Max(orders[0].id, MaxId(orders[1..]))
  }

  lemma {:induction false} MaxIdBounds(orders: seq<Order>, k: nat)
    requires k < |orders|
    ensures orders[k].id <= MaxId(orders)
    decreases |orders|
  {
    if k > 0 {
      MaxIdBounds(orders[1..], k - 1);
    }
  }

  lemma {:induction false} FindNewest(orders: seq<Order>, o: Order)
    requires !HasOrder(orders, o.id)
    ensures HasOrder(orders + [o], o.id) && FindOrder(orders + [o], o.id) == |orders|
    decreases |orders|
  {
    assert (orders + [o])[|orders|] == o;
    if orders != [] {
      assert (orders + [o])[1..] == orders[1..] + [o];
      assert orders[0].id != o.id;
      FindNewest(orders[1..], o);
    }
  }

  /** An order of one paisa, made for something else, pays a request that has no charge yet. */
  lemma UnchargedRun(t: Terms, s: State)
    requires HoldsAgree(s) && s.payment == Unpaid && !s.requestMatched && (s.status == Proposed || s.status == CarrierAccepted)
    requires !HasCharge(s)
    ensures exists ops :: !HeldIsCharge(Run(t, s, ops))
  {
    var o := Order(MaxId(s.orders) + 1, 1, false);
    if HasOrder(s.orders, o.id) {
      var k: nat :| k < |s.orders| && s.orders[k].id == o.id;
      MaxIdBounds(s.orders, k);
    }
    FindNewest(s.orders, o);
    var a, b, c, d := CarrierAccept, OtherOrder(o.id, 1), SenderConfirm, ConfirmPayment(o.id, true);
    assert [a, b, c, d][1..] == [b, c, d] && [b, c, d][1..] == [c, d] && [c, d][1..] == [d] && [d][1..] == [];
    var s1 := Apply(t, s, a);
    var s2 := Apply(t, s1, b);
    var s3 := Apply(t, s2, c);
    var s4 := Apply(t, s3, d);
    assert s4.holds == [1] && s4.totalCharge == s.totalCharge;
    assert Run(t, s, [a, b, c, d]) == Run(t, s1, [b, c, d]);
    assert Run(t, s1, [b, c, d]) == Run(t, s2, [c, d]) == Run(t, s3, [d]) == s4;
  }

  /** Whatever is done with a fresh request, what is held is its charge if and only if it has one. */
  lemma ChargeHeldIff(t: Terms, s: State)
    requires HoldsAgree(s) && s.payment == Unpaid && !s.requestMatched && (s.status == Proposed || s.status == CarrierAccepted)
    ensures (forall ops: seq<Op> :: HeldIsCharge(Run(t, s, ops))) <==> HasCharge(s)
  {
    if HasCharge(s) {
      forall ops: seq<Op> ensures HeldIsCharge(Run(t, s, ops)) {
        StoredChargeHeld(t, s, ops);
      }
    } else {
      UnchargedRun(t, s);
    }
  }

  /** A payment that goes through is made with an order while the request has one. */
  predicate OrderedFirst(s: State, op: Op) {
    op.ConfirmPayment? && s.payment == Unpaid && PaymentGoesThrough(s, op.orderId, op.signatureOk) ==> s.orderId.Some?
  }

  predicate RunOrderedFirst(t: Terms, s: State, ops: seq<Op>)
    decreases |ops|
  {
    ops == [] || (OrderedFirst(s, ops[0]) && RunOrderedFirst(t, Apply(t, s, ops[0]), ops[1..]))
  }

  /** A request ordered before it is paid holds the charge it was ordered for, and ordering fixes that charge. */
  lemma {:induction false} OrderedChargeHeld(t: Terms, s: State, ops: seq<Op>)
    requires ChargeAgrees(s) && RunOrderedFirst(t, s, ops) && t.weightCharge > 0
    ensures var after := Run(t, s, ops);
            && ChargeAgrees(after)
            && (after.requestMatched && after.payment == Paid ==>
                  after.totalCharge.Some? && after.holds == [after.totalCharge.value])
            && (s.orderId.Some? ==> after.totalCharge == s.totalCharge)
    decreases |ops|
  {
    if ops != [] {
      OrderedChargeHeld(t, Apply(t, s, ops[0]), ops[1..]);
    }
  }

  /** Confirm then pay, and pay then confirm, end in the same hold. */
  lemma OrdersAgree(t: Terms, s: State, order: nat)
    requires ChargeAgrees(s) && s.status == CarrierAccepted && s.payment == Unpaid && !s.requestMatched && s.holds == []
    requires s.orderId == Some(order) && HasOrder(s.orders, order)
    ensures var a := Run(t, s, [SenderConfirm, ConfirmPayment(order, true)]);
            var b := Run(t, s, [ConfirmPayment(order, true), SenderConfirm]);
            && a.holds == b.holds == [s.totalCharge.value] && a.payment == b.payment == Paid
            && a.orders == b.orders && a.requestMatched && b.requestMatched
  {
    var p, c := ConfirmPayment(order, true), SenderConfirm;
    assert [c, p][1..] == [p] && [p, c][1..] == [c] && [p][1..] == [] && [c][1..] == [];
    assert Run(t, s, [c, p]) == Run(t, Apply(t, s, c), [p]) == Apply(t, Apply(t, s, c), p);
    assert Run(t, s, [p, c]) == Run(t, Apply(t, s, p), [c]) == Apply(t, Apply(t, s, p), c);
  }
}
