/**
 Confirming and paying as they really run: any number of calls, each several
 awaits long, interleaved. What each call reads from the request it goes on
 using after others have written.
 */
module PaymentRaces {
  import opened Common
  import opened MatchStates
  import opened Payments

  /** Where a call is. `amount` is what it would hold, fixed by what it has read. */
  datatype Call =
    | ConfirmNew
    | ConfirmChecked                                         // the match was read as accepted
    | ConfirmRead(amount: int, paid: bool)                   // the request was read
    | ConfirmLast                                            // the request's match is still to be set
    | PayNew(orderId: nat, signatureOk: bool)
    | PayRead(orderId: nat, charge: Option<int>, matched: bool) // the request was read as not paid
    | PayFound(k: nat, amount: int, matched: bool)           // the order was found
    | PayCompleted(amount: int, matched: bool)               // the order was saved as completed
    | Testing(amount: int, confirming: bool)                 // about to look for a hold
    | Holding(amount: int, confirming: bool)                 // found none
    | Done(confirming: bool)
    | Stopped

  datatype Sys = Sys(state: State, calls: seq<Call>)

  datatype Step =
    | Start(call: Call)
    | Advance(c: nat)
    | Die(c: nat)      // the call throws or its process ends
    | Other(op: Op)    // an accept, or an order being made

  predicate InProgress(call: Call) {
    !call.Done? && !call.Stopped?
  }

  function AfterHold(confirming: bool): Call {
    if confirming then ConfirmLast else Done(false)
  }

  /** One await of a call. */
  function Progress(t: Terms, s: State, call: Call): (State, Call) {
    match call
    case ConfirmNew => (s, if s.status == CarrierAccepted then ConfirmChecked else Stopped)
    case ConfirmChecked => (s, ConfirmRead(OrElse(s.totalCharge, t.agreedPrice), s.payment == Paid))
    case ConfirmRead(amount, paid) =>
      (s.(status := if paid then Active else SenderConfirmed), if paid then Testing(amount, true) else ConfirmLast)
    case ConfirmLast => (s.(requestMatched := true), Done(true))
    case PayNew(orderId, signatureOk) =>
      (s, if !signatureOk then Stopped else if s.payment == Paid then Done(false) else PayRead(orderId, s.totalCharge, s.requestMatched))
    case PayRead(orderId, charge, matched) =>
      if HasOrder(s.orders, orderId) then
        var k := FindOrder(s.orders, orderId);
        (s, PayFound(k, OrElse(charge, s.orders[k].amount), matched))
      else (s, Stopped)
    case PayFound(k, amount, matched) =>
      (if k < |s.orders| then s.(orders := s.orders[k := s.orders[k].(completed := true)]) else s, PayCompleted(amount, matched))
    case PayCompleted(amount, matched) => (s.(payment := Paid), if matched then Testing(amount, false) else Done(false))
    case Testing(amount, confirming) => (s, if s.holds == [] then Holding(amount, confirming) else AfterHold(confirming))
    case Holding(amount, confirming) => (s.(holds := s.holds + [amount]), AfterHold(confirming))
    case _ => (s, call)
  }

  function Next(t: Terms, s: Sys, st: Step): Sys {
    match st
    case Start(call) => if call.ConfirmNew? || call.PayNew? then s.(calls := s.calls + [call]) else s
    case Advance(c) =>
      if c < |s.calls| then
        var (after, call) := Progress(t, s.state, s.calls[c]);
        Sys(after, s.calls[c := call])
      else s
    case Die(c) => if c < |s.calls| && InProgress(s.calls[c]) then s.(calls := s.calls[c := Stopped]) else s
    case Other(op) => if op.SenderConfirm? || op.ConfirmPayment? then s else s.(state := Apply(t, s.state, op))
  }

  function Exec(t: Terms, s: Sys, run: seq<Step>): Sys
    decreases |run|
  {
    if run == [] then s else Exec(t, Next(t, s, run[0]), run[1..])
  }

  /** Nothing confirmed, paid or held yet, and no call made. */
  predicate Init(s: Sys) {
    s.calls == [] && s.state.payment == Unpaid && !s.state.requestMatched && s.state.holds == []
  }

  // ---------------------------------------------------------------- a call alone is the call as a whole

  function Rank(call: Call): nat {
    match call
    case ConfirmNew => 6 case ConfirmChecked => 5 case ConfirmRead(_, _) => 4
    case PayNew(_, _) => 7 case PayRead(_, _, _) => 6 case PayFound(_, _, _) => 5 case PayCompleted(_, _) => 4
    case Testing(_, _) => 3 case Holding(_, _) => 2 case ConfirmLast => 1 case Done(_) => 0 case Stopped => 0
  }

  lemma RankFalls(t: Terms, s: State, call: Call)
    ensures InProgress(call) ==> Rank(Progress(t, s, call).1) < Rank(call)
  {
  }

  /** The call's awaits one after another with nothing in between. */
  function Finish(t: Terms, s: State, call: Call): (State, Call)
    decreases Rank(call)
  {
    RankFalls(t, s, call);
    if !InProgress(call) then (s, call) else Finish(t, Progress(t, s, call).0, Progress(t, s, call).1)
  }

  lemma {:induction false} FinishIsRun(t: Terms, s: Sys, c: nat, n: nat)
    requires c < |s.calls| && n >= Rank(s.calls[c])
    ensures var (after, call) := Finish(t, s.state, s.calls[c]);
            Exec(t, s, seq(n, _ => Advance(c))) == Sys(after, s.calls[c := call])
    decreases n
  {
    var run := seq(n, _ => Advance(c));
    if n > 0 {
      assert run[1..] == seq(n - 1, _ => Advance(c));
      RankFalls(t, s.state, s.calls[c]);
      var next := Next(t, s, Advance(c));
      FinishIsRun(t, next, c, n - 1);
      var last := Finish(t, s.state, s.calls[c]).1;
      assert next.calls[c := last] == s.calls[c := last];
    } else {
      assert s.calls[c := s.calls[c]] == s.calls;
    }
  }

  lemma HoldTest(t: Terms, s: State, amount: int, confirming: bool)
    ensures Finish(t, s, Testing(amount, confirming)) == Finish(t, s.(holds := HoldOnce(s.holds, amount)), AfterHold(confirming))
  {
    if s.holds == [] {
      assert s.holds + [amount] == [amount];
      assert Finish(t, s, Testing(amount, confirming)) == Finish(t, s, Holding(amount, confirming));
      assert Finish(t, s, Holding(amount, confirming)) == Finish(t, s.(holds := [amount]), AfterHold(confirming));
    } else {
      assert s.(holds := HoldOnce(s.holds, amount)) == s;
    }
  }

  /** An uninterrupted `senderConfirm` does what the sequential model says. */
  lemma WholeConfirm(t: Terms, s: State)
    ensures Finish(t, s, ConfirmNew) == (AfterConfirm(t, s), if s.status == CarrierAccepted then Done(true) else Stopped)
  {
    if s.status == CarrierAccepted {
      var amount, paid := OrElse(s.totalCharge, t.agreedPrice), s.payment == Paid;
      assert Finish(t, s, ConfirmNew) == Finish(t, s, ConfirmChecked) == Finish(t, s, ConfirmRead(amount, paid));
      var written := s.(status := if paid then Active else SenderConfirmed);
      assert Finish(t, s, ConfirmRead(amount, paid)) == Finish(t, written, if paid then Testing(amount, true) else ConfirmLast);
      if paid { HoldTest(t, written, amount, true); }
      var held := if paid then written.(holds := HoldOnce(s.holds, amount)) else written;
      assert Finish(t, held, ConfirmLast) == Finish(t, held.(requestMatched := true), Done(true));
    }
  }

  /** And so does an uninterrupted `confirmDeliveryPayment`. */
  lemma WholePay(t: Terms, s: State, orderId: nat, ok: bool)
    ensures Finish(t, s, PayNew(orderId, ok))
            == (AfterPay(s, orderId, ok), if ok && (s.payment == Paid || HasOrder(s.orders, orderId)) then Done(false) else Stopped)
  {
    if ok && s.payment != Paid {
      var read := PayRead(orderId, s.totalCharge, s.requestMatched);
      assert Finish(t, s, PayNew(orderId, ok)) == Finish(t, s, read);
      if HasOrder(s.orders, orderId) {
        var k := FindOrder(s.orders, orderId);
        var amount := OrElse(s.totalCharge, s.orders[k].amount);
        assert Finish(t, s, read) == Finish(t, s, PayFound(k, amount, s.requestMatched));
        var s1 := s.(orders := s.orders[k := s.orders[k].(completed := true)]);
        assert Finish(t, s, PayFound(k, amount, s.requestMatched)) == Finish(t, s1, PayCompleted(amount, s.requestMatched));
        var s2 := s1.(payment := Paid);
        assert Finish(t, s1, PayCompleted(amount, s.requestMatched)) == Finish(t, s2, if s.requestMatched then Testing(amount, false) else Done(false));
        if s.requestMatched { HoldTest(t, s2, amount, false); }
        assert AfterPay(s, orderId, ok) == if s.requestMatched then s2.(holds := HoldOnce(s.holds, amount)) else s2;
      } else {
        assert Finish(t, s, read) == Finish(t, s, Stopped);
      }
    }
  }

  // ---------------------------------------------------------------- when exactly one hold is made

  datatype Overlap = TwoConfirms | TwoPayments | ConfirmAndPayment

  predicate Confirming(call: Call) {
    match call
    case Testing(_, confirming) => confirming
    case Holding(_, confirming) => confirming
    case Done(confirming) => confirming
    case _ => call.ConfirmNew? || call.ConfirmChecked? || call.ConfirmRead? || call.ConfirmLast?
  }

  function OverlapOf(a: Call, b: Call): Overlap {
    if Confirming(a) && Confirming(b) then TwoConfirms
    else if !Confirming(a) && !Confirming(b) then TwoPayments
    else ConfirmAndPayment
  }

  /** A call starts only beside calls it may overlap with, and ends early only where that may happen. */
  predicate Admitted(s: Sys, st: Step, overlaps: set<Overlap>, mayDie: bool) {
    && (st.Start? ==> forall x <- s.calls :: InProgress(x) ==> OverlapOf(x, st.call) in overlaps)
    && (st.Die? ==> mayDie)
  }

  predicate RunAdmitted(t: Terms, s: Sys, run: seq<Step>, overlaps: set<Overlap>, mayDie: bool)
    decreases |run|
  {
    run == [] || (Admitted(s, run[0], overlaps, mayDie) && RunAdmitted(t, Next(t, s, run[0]), run[1..], overlaps, mayDie))
  }

  /** When no call is under way and both a confirmation and a payment have succeeded, there is exactly one hold. */
  predicate HeldOnce(s: Sys) {
    (forall x <- s.calls :: !InProgress(x)) && Done(true) in s.calls && Done(false) in s.calls ==> |s.state.holds| == 1
  }

  predicate HalfDone(s: State, confirming: bool) {
    s.payment == Paid && (s.status == SenderConfirmed || s.status == Active) && s.requestMatched == !confirming
  }

  /** What the one call under way knows, and what it has left to do. */
  predicate CallOk(s: State, call: Call) {
    match call
    case ConfirmNew => HoldsAgree(s)
    case ConfirmChecked => HoldsAgree(s) && s.status == CarrierAccepted
    case ConfirmRead(_, paid) => HoldsAgree(s) && s.status == CarrierAccepted && (paid <==> s.payment == Paid)
    case PayNew(_, _) => HoldsAgree(s)
    case PayRead(_, _, matched) => HoldsAgree(s) && s.payment != Paid && (matched <==> s.requestMatched)
    case PayFound(_, _, matched) => HoldsAgree(s) && s.payment != Paid && (matched <==> s.requestMatched)
    case PayCompleted(_, matched) => HoldsAgree(s) && s.payment != Paid && (matched <==> s.requestMatched)
    case Testing(_, confirming) => s.holds == [] && HalfDone(s, confirming)
    case Holding(_, confirming) => s.holds == [] && HalfDone(s, confirming)
    case ConfirmLast =>
      !s.requestMatched && s.payment != Refunded && (s.status == SenderConfirmed || s.status == Active) && |s.holds| == if s.payment == Paid then 1 else 0
    case Done(confirming) => HoldsAgree(s) && (if confirming then s.requestMatched else s.payment == Paid)
    case Stopped => HoldsAgree(s)
  }

  predicate Left(s: State, call: Call) {
    !InProgress(call) && (call == Done(true) ==> s.requestMatched) && (call == Done(false) ==> s.payment == Paid)
  }

  /** At most the newest call is under way, and the others have left the state they report. */
  ghost predicate Serial(s: Sys) {
    && (s.calls == [] ==> HoldsAgree(s.state))
    && (forall c :: 0 <= c < |s.calls| - 1 ==> Left(s.state, s.calls[c]))
    && (s.calls != [] ==> CallOk(s.state, s.calls[|s.calls| - 1]))
  }

  lemma ProgressKeeps(t: Terms, s: State, call: Call)
    requires CallOk(s, call)
    ensures CallOk(Progress(t, s, call).0, Progress(t, s, call).1)
    ensures s.requestMatched ==> Progress(t, s, call).0.requestMatched
    ensures s.payment == Paid ==> Progress(t, s, call).0.payment == Paid
  {
  }

  lemma SerialStep(t: Terms, s: Sys, st: Step)
    requires Serial(s) && Admitted(s, st, {}, false)
    ensures Serial(Next(t, s, st))
  {
    var after := Next(t, s, st);
    match st
    case Start(call) =>
      if s.calls != [] {
        var last := s.calls[|s.calls| - 1];
        assert last in s.calls && !InProgress(last);
      }
    case Advance(c) =>
      if c < |s.calls| {
        if c < |s.calls| - 1 {
          assert Left(s.state, s.calls[c]);
          assert s.calls[c := s.calls[c]] == s.calls;
        } else {
          ProgressKeeps(t, s.state, s.calls[c]);
          forall d | 0 <= d < |after.calls| - 1 ensures Left(after.state, after.calls[d]) { assert Left(s.state, s.calls[d]); }
        }
      }
    case Die(_) =>
    case Other(op) =>
      forall d | 0 <= d < |after.calls| - 1 ensures Left(after.state, after.calls[d]) { assert Left(s.state, s.calls[d]); }
  }

  lemma {:induction false} SerialRun(t: Terms, s: Sys, run: seq<Step>)
    requires Serial(s) && RunAdmitted(t, s, run, {}, false)
    ensures Serial(Exec(t, s, run))
    decreases |run|
  {
    if run != [] {
      SerialStep(t, s, run[0]);
      SerialRun(t, Next(t, s, run[0]), run[1..]);
    }
  }

  lemma SerialHolds(s: Sys)
    requires Serial(s)
    ensures HeldOnce(s)
  {
    if (forall x <- s.calls :: !InProgress(x)) && Done(true) in s.calls && Done(false) in s.calls {
      var last := |s.calls| - 1;
      var c :| 0 <= c < |s.calls| && s.calls[c] == Done(true);
      var d :| 0 <= d < |s.calls| && s.calls[d] == Done(false);
      assert s.calls[last] in s.calls;
      assert c < last ==> Left(s.state, s.calls[c]);
      assert d < last ==> Left(s.state, s.calls[d]);
    }
  }

  // ---------------------------------------------------------------- runs in which it goes wrong

  const TERMS := Terms(100, 100)

  function At(status: Status, payment: Payment, matched: bool, completed: bool, holds: seq<int>): State {
    State(status, payment, matched, Some(100), Some(0), [Order(0, 100, completed)], holds)
  }

  function Fresh(): Sys {
    Sys(At(CarrierAccepted, Unpaid, false, false, []), [])
  }

  lemma OnlyOrder(completed: bool)
    ensures HasOrder([Order(0, 100, completed)], 0) && FindOrder([Order(0, 100, completed)], 0) == 0
  {
    assert [Order(0, 100, completed)][0].id == 0;
  }

  predicate Linked(s: Sys, st: Step, after: Sys, overlaps: set<Overlap>, mayDie: bool) {
    Next(TERMS, s, st) == after && Admitted(s, st, overlaps, mayDie)
  }

  /** A run whose successive states are known. */
  lemma {:induction false} Along(states: seq<Sys>, run: seq<Step>, overlaps: set<Overlap>, mayDie: bool)
    requires |states| == |run| + 1
    requires forall i :: 0 <= i < |run| ==> Linked(states[i], run[i], states[i + 1], overlaps, mayDie)
    ensures Exec(TERMS, states[0], run) == states[|run|]
    ensures RunAdmitted(TERMS, states[0], run, overlaps, mayDie)
    decreases |run|
  {
    if run != [] {
      Along(states[1..], run[1..], overlaps, mayDie);
    }
  }

  /** Each call reads the request before the other writes it: neither makes the hold. */
  const CROSSED: seq<Step> :=
    [Start(ConfirmNew), Start(PayNew(0, true)), Advance(0), Advance(0), Advance(1), Advance(1), Advance(1), Advance(1),
     Advance(0), Advance(0)]

  function CrossedStates(): seq<Sys> {
    var u, c := At(CarrierAccepted, Unpaid, false, false, []), At(CarrierAccepted, Unpaid, false, true, []);
    var pay, read := PayNew(0, true), ConfirmRead(100, false);
    [Fresh(), Sys(u, [ConfirmNew]), Sys(u, [ConfirmNew, pay]), Sys(u, [ConfirmChecked, pay]), Sys(u, [read, pay]),
     Sys(u, [read, PayRead(0, Some(100), false)]), Sys(u, [read, PayFound(0, 100, false)]), Sys(c, [read, PayCompleted(100, false)]),
     Sys(c.(payment := Paid), [read, Done(false)]), Sys(c.(payment := Paid, status := SenderConfirmed), [ConfirmLast, Done(false)]),
     Sys(At(SenderConfirmed, Paid, true, true, []), [Done(true), Done(false)])]
  }

  lemma CrossedBegin(i: nat, overlaps: set<Overlap>, mayDie: bool)
    requires i < 5 && ConfirmAndPayment in overlaps
    ensures Linked(CrossedStates()[i], CROSSED[i], CrossedStates()[i + 1], overlaps, mayDie)
  {
    OnlyOrder(false);
  }

  lemma CrossedEnd(i: nat, overlaps: set<Overlap>, mayDie: bool)
    requires 5 <= i < 10 && ConfirmAndPayment in overlaps
    ensures Linked(CrossedStates()[i], CROSSED[i], CrossedStates()[i + 1], overlaps, mayDie)
  {
    OnlyOrder(false);
  }

  lemma CrossedStep(i: nat, overlaps: set<Overlap>, mayDie: bool)
    requires i < 10 && ConfirmAndPayment in overlaps
    ensures Linked(CrossedStates()[i], CROSSED[i], CrossedStates()[i + 1], overlaps, mayDie)
  {
    if i < 5 { CrossedBegin(i, overlaps, mayDie); } else { CrossedEnd(i, overlaps, mayDie); }
  }

  /** A confirmation alone. */
  const CONFIRMED: seq<Step> := [Start(ConfirmNew), Advance(0), Advance(0), Advance(0), Advance(0)]

  function ConfirmedStates(): seq<Sys> {
    var u, s := At(CarrierAccepted, Unpaid, false, false, []), At(SenderConfirmed, Unpaid, false, false, []);
    [Fresh(), Sys(u, [ConfirmNew]), Sys(u, [ConfirmChecked]), Sys(u, [ConfirmRead(100, false)]), Sys(s, [ConfirmLast]),
     Sys(s.(requestMatched := true), [Done(true)])]
  }

  lemma ConfirmedStep(i: nat, overlaps: set<Overlap>, mayDie: bool)
    requires i < 5
    ensures Linked(ConfirmedStates()[i], CONFIRMED[i], ConfirmedStates()[i + 1], overlaps, mayDie)
  {
  }

  /** A payment alone. */
  const PAID: seq<Step> := [Start(PayNew(0, true)), Advance(0), Advance(0), Advance(0), Advance(0)]

  function PaidStates(): seq<Sys> {
    var u, c := At(CarrierAccepted, Unpaid, false, false, []), At(CarrierAccepted, Unpaid, false, true, []);
    [Fresh(), Sys(u, [PayNew(0, true)]), Sys(u, [PayRead(0, Some(100), false)]), Sys(u, [PayFound(0, 100, false)]),
     Sys(c, [PayCompleted(100, false)]), Sys(c.(payment := Paid), [Done(false)])]
  }

  lemma PaidStep(i: nat, overlaps: set<Overlap>, mayDie: bool)
    requires i < 5
    ensures Linked(PaidStates()[i], PAID[i], PaidStates()[i + 1], overlaps, mayDie)
  {
    OnlyOrder(false);
  }

  /** After a confirmation, two payments that both look for a hold before either makes it. */
  const PAYMENTS: seq<Step> :=
    [Start(PayNew(0, true)), Start(PayNew(0, true)), Advance(1), Advance(1), Advance(1), Advance(2), Advance(2), Advance(2),
     Advance(1), Advance(2), Advance(1), Advance(2), Advance(1), Advance(2)]

  function PaymentsStates(): seq<Sys> {
    var m, c, p := At(SenderConfirmed, Unpaid, true, false, []), At(SenderConfirmed, Unpaid, true, true, []), At(SenderConfirmed, Paid, true, true, []);
    var d, n, r, f, k, q, h, e := Done(true), PayNew(0, true), PayRead(0, Some(100), true), PayFound(0, 100, true),
      PayCompleted(100, true), Testing(100, false), Holding(100, false), Done(false);
    [Sys(m, [d]), Sys(m, [d, n]), Sys(m, [d, n, n]), Sys(m, [d, r, n]), Sys(m, [d, f, n]), Sys(c, [d, k, n]), Sys(c, [d, k, r]),
     Sys(c, [d, k, f]), Sys(c, [d, k, k]), Sys(p, [d, q, k]), Sys(p, [d, q, q]), Sys(p, [d, h, q]), Sys(p, [d, h, h]),
     Sys(p.(holds := [100]), [d, e, h]), Sys(p.(holds := [100, 100]), [d, e, e])]
  }

  lemma PaymentsBegin(i: nat, overlaps: set<Overlap>, mayDie: bool)
    requires i < 7 && TwoPayments in overlaps
    ensures Linked(PaymentsStates()[i], PAYMENTS[i], PaymentsStates()[i + 1], overlaps, mayDie)
  {
    OnlyOrder(false);
    OnlyOrder(true);
  }

  lemma PaymentsEnd(i: nat, overlaps: set<Overlap>, mayDie: bool)
    requires 7 <= i < 14 && TwoPayments in overlaps
    ensures Linked(PaymentsStates()[i], PAYMENTS[i], PaymentsStates()[i + 1], overlaps, mayDie)
  {
    OnlyOrder(false);
    OnlyOrder(true);
  }

  lemma PaymentsStep(i: nat, overlaps: set<Overlap>, mayDie: bool)
    requires i < 14 && TwoPayments in overlaps
    ensures Linked(PaymentsStates()[i], PAYMENTS[i], PaymentsStates()[i + 1], overlaps, mayDie)
  {
    if i < 7 { PaymentsBegin(i, overlaps, mayDie); } else { PaymentsEnd(i, overlaps, mayDie); }
  }

  /** After a payment, two confirmations that both look for a hold before either makes it. */
  const CONFIRMS: seq<Step> :=
    [Start(ConfirmNew), Start(ConfirmNew), Advance(1), Advance(1), Advance(2), Advance(2), Advance(1), Advance(2),
     Advance(1), Advance(2), Advance(1), Advance(2), Advance(1), Advance(2)]

  function ConfirmsStates(): seq<Sys> {
    var p, a, b := At(CarrierAccepted, Paid, false, true, []), At(Active, Paid, false, true, []), At(Active, Paid, false, true, [100, 100]);
    var e, n, k, r, q, h, l, d := Done(false), ConfirmNew, ConfirmChecked, ConfirmRead(100, true), Testing(100, true),
      Holding(100, true), ConfirmLast, Done(true);
    [Sys(p, [e]), Sys(p, [e, n]), Sys(p, [e, n, n]), Sys(p, [e, k, n]), Sys(p, [e, r, n]), Sys(p, [e, r, k]), Sys(p, [e, r, r]),
     Sys(a, [e, q, r]), Sys(a, [e, q, q]), Sys(a, [e, h, q]), Sys(a, [e, h, h]), Sys(a.(holds := [100]), [e, l, h]),
     Sys(b, [e, l, l]), Sys(b.(requestMatched := true), [e, d, l]), Sys(b.(requestMatched := true), [e, d, d])]
  }

  lemma ConfirmsBegin(i: nat, overlaps: set<Overlap>, mayDie: bool)
    requires i < 7 && TwoConfirms in overlaps
    ensures Linked(ConfirmsStates()[i], CONFIRMS[i], ConfirmsStates()[i + 1], overlaps, mayDie)
  {
  }

  lemma ConfirmsEnd(i: nat, overlaps: set<Overlap>, mayDie: bool)
    requires 7 <= i < 14 && TwoConfirms in overlaps
    ensures Linked(ConfirmsStates()[i], CONFIRMS[i], ConfirmsStates()[i + 1], overlaps, mayDie)
  {
  }

  lemma ConfirmsStep(i: nat, overlaps: set<Overlap>, mayDie: bool)
    requires i < 14 && TwoConfirms in overlaps
    ensures Linked(ConfirmsStates()[i], CONFIRMS[i], ConfirmsStates()[i + 1], overlaps, mayDie)
  {
    if i < 7 { ConfirmsBegin(i, overlaps, mayDie); } else { ConfirmsEnd(i, overlaps, mayDie); }
  }

  /** After a confirmation, a payment that ends between its write and its hold, and is called again. */
  const RETRIED: seq<Step> :=
    [Start(PayNew(0, true)), Advance(1), Advance(1), Advance(1), Advance(1), Die(1), Start(PayNew(0, true)), Advance(2)]

  function RetriedStates(): seq<Sys> {
    var m, c, p := At(SenderConfirmed, Unpaid, true, false, []), At(SenderConfirmed, Unpaid, true, true, []), At(SenderConfirmed, Paid, true, true, []);
    var d, n := Done(true), PayNew(0, true);
    [Sys(m, [d]), Sys(m, [d, n]), Sys(m, [d, PayRead(0, Some(100), true)]), Sys(m, [d, PayFound(0, 100, true)]),
     Sys(c, [d, PayCompleted(100, true)]), Sys(p, [d, Testing(100, false)]), Sys(p, [d, Stopped]), Sys(p, [d, Stopped, n]),
     Sys(p, [d, Stopped, Done(false)])]
  }

  lemma RetriedStep(i: nat, overlaps: set<Overlap>, mayDie: bool)
    requires i < 8 && mayDie
    ensures Linked(RetriedStates()[i], RETRIED[i], RetriedStates()[i + 1], overlaps, mayDie)
  {
    OnlyOrder(false);
  }

  lemma {:induction false} Concat(s: Sys, a: seq<Step>, b: seq<Step>, overlaps: set<Overlap>, mayDie: bool)
    requires RunAdmitted(TERMS, s, a, overlaps, mayDie) && RunAdmitted(TERMS, Exec(TERMS, s, a), b, overlaps, mayDie)
    ensures Exec(TERMS, s, a + b) == Exec(TERMS, Exec(TERMS, s, a), b)
    ensures RunAdmitted(TERMS, s, a + b, overlaps, mayDie)
    decreases |a|
  {
    if a == [] {
      assert a + b == b;
    } else {
      assert (a + b)[1..] == a[1..] + b;
      Concat(Next(TERMS, s, a[0]), a[1..], b, overlaps, mayDie);
    }
  }

  /** A run that is admitted and ends badly. */
  ghost predicate GoesWrong(run: seq<Step>, overlaps: set<Overlap>, mayDie: bool) {
    RunAdmitted(TERMS, Fresh(), run, overlaps, mayDie) && !HeldOnce(Exec(TERMS, Fresh(), run))
  }

  lemma WrongEnd(s: Sys, c: nat, d: nat)
    requires forall x <- s.calls :: !InProgress(x)
    requires c < |s.calls| && d < |s.calls| && s.calls[c] == Done(true) && s.calls[d] == Done(false) && |s.state.holds| != 1
    ensures !HeldOnce(s)
  {
  }

  lemma CrossedHappens(overlaps: set<Overlap>, mayDie: bool) returns (run: seq<Step>)
    requires ConfirmAndPayment in overlaps
    ensures RunAdmitted(TERMS, CrossedStates()[0], run, overlaps, mayDie)
    ensures Exec(TERMS, CrossedStates()[0], run) == CrossedStates()[10]
  {
    run := CROSSED;
    forall i | 0 <= i < 10 ensures Linked(CrossedStates()[i], run[i], CrossedStates()[i + 1], overlaps, mayDie) {
      CrossedStep(i, overlaps, mayDie);
    }
    Along(CrossedStates(), run, overlaps, mayDie);
  }

  lemma ConfirmedHappens(overlaps: set<Overlap>, mayDie: bool) returns (run: seq<Step>)
    ensures RunAdmitted(TERMS, Fresh(), run, overlaps, mayDie) && Exec(TERMS, Fresh(), run) == PaymentsStates()[0]
  {
    run := CONFIRMED;
    forall i | 0 <= i < 5 ensures Linked(ConfirmedStates()[i], run[i], ConfirmedStates()[i + 1], overlaps, mayDie) {
      ConfirmedStep(i, overlaps, mayDie);
    }
    Along(ConfirmedStates(), run, overlaps, mayDie);
  }

  lemma PaidHappens(overlaps: set<Overlap>, mayDie: bool) returns (run: seq<Step>)
    ensures RunAdmitted(TERMS, Fresh(), run, overlaps, mayDie) && Exec(TERMS, Fresh(), run) == ConfirmsStates()[0]
  {
    run := PAID;
    forall i | 0 <= i < 5 ensures Linked(PaidStates()[i], run[i], PaidStates()[i + 1], overlaps, mayDie) {
      PaidStep(i, overlaps, mayDie);
    }
    Along(PaidStates(), run, overlaps, mayDie);
  }

  lemma PaymentsHappen(overlaps: set<Overlap>, mayDie: bool) returns (run: seq<Step>)
    requires TwoPayments in overlaps
    ensures RunAdmitted(TERMS, PaymentsStates()[0], run, overlaps, mayDie)
    ensures Exec(TERMS, PaymentsStates()[0], run) == PaymentsStates()[14]
  {
    run := PAYMENTS;
    forall i | 0 <= i < 14 ensures Linked(PaymentsStates()[i], run[i], PaymentsStates()[i + 1], overlaps, mayDie) {
      PaymentsStep(i, overlaps, mayDie);
    }
    Along(PaymentsStates(), run, overlaps, mayDie);
  }

  lemma ConfirmsHappen(overlaps: set<Overlap>, mayDie: bool) returns (run: seq<Step>)
    requires TwoConfirms in overlaps
    ensures RunAdmitted(TERMS, ConfirmsStates()[0], run, overlaps, mayDie)
    ensures Exec(TERMS, ConfirmsStates()[0], run) == ConfirmsStates()[14]
  {
    run := CONFIRMS;
    forall i | 0 <= i < 14 ensures Linked(ConfirmsStates()[i], run[i], ConfirmsStates()[i + 1], overlaps, mayDie) {
      ConfirmsStep(i, overlaps, mayDie);
    }
    Along(ConfirmsStates(), run, overlaps, mayDie);
  }

  lemma RetriedHappens(overlaps: set<Overlap>) returns (run: seq<Step>)
    ensures RunAdmitted(TERMS, RetriedStates()[0], run, overlaps, true)
    ensures Exec(TERMS, RetriedStates()[0], run) == RetriedStates()[8]
  {
    run := RETRIED;
    forall i | 0 <= i < 8 ensures Linked(RetriedStates()[i], run[i], RetriedStates()[i + 1], overlaps, true) {
      RetriedStep(i, overlaps, true);
    }
    Along(RetriedStates(), run, overlaps, true);
  }

  lemma SomeRunGoesWrong(overlaps: set<Overlap>, mayDie: bool) returns (run: seq<Step>)
    requires overlaps != {} || mayDie
    ensures GoesWrong(run, overlaps, mayDie)
  {
    if ConfirmAndPayment in overlaps {
      run := CrossedHappens(overlaps, mayDie);
      WrongEnd(CrossedStates()[10], 0, 1);
    } else if TwoConfirms in overlaps {
      var first := PaidHappens(overlaps, mayDie);
      var rest := ConfirmsHappen(overlaps, mayDie);
      Concat(Fresh(), first, rest, overlaps, mayDie);
      run := first + rest;
      WrongEnd(ConfirmsStates()[14], 1, 0);
    } else {
      var first := ConfirmedHappens(overlaps, mayDie);
      if TwoPayments in overlaps {
        var rest := PaymentsHappen(overlaps, mayDie);
        Concat(Fresh(), first, rest, overlaps, mayDie);
        run := first + rest;
        WrongEnd(PaymentsStates()[14], 0, 1);
      } else {
        assert mayDie by {
          if o :| o in overlaps { assert o == TwoConfirms || o == TwoPayments || o == ConfirmAndPayment; }
        }
        var rest := RetriedHappens(overlaps);
        Concat(Fresh(), first, rest, overlaps, mayDie);
        run := first + rest;
        WrongEnd(RetriedStates()[8], 0, 2);
      }
    }
  }

  /**
   Once a confirmation and a payment have both succeeded and no call is under
   way there is exactly one hold, in every run, if and only if no two of the
   calls overlap, of whichever kinds, and none ends halfway.
   */
  lemma HeldOnceIff(overlaps: set<Overlap>, mayDie: bool)
    ensures (forall t: Terms, s0: Sys, run: seq<Step> ::
               Init(s0) && RunAdmitted(t, s0, run, overlaps, mayDie) ==> HeldOnce(Exec(t, s0, run)))
            <==> overlaps == {} && !mayDie
  {
    if overlaps == {} && !mayDie {
      forall t: Terms, s0: Sys, run: seq<Step> | Init(s0) && RunAdmitted(t, s0, run, overlaps, mayDie)
        ensures HeldOnce(Exec(t, s0, run))
      {
        SerialRun(t, s0, run);
        SerialHolds(Exec(t, s0, run));
      }
    } else {
      var run := SomeRunGoesWrong(overlaps, mayDie);
      assert Init(Fresh()) && RunAdmitted(TERMS, Fresh(), run, overlaps, mayDie) && !HeldOnce(Exec(TERMS, Fresh(), run));
    }
  }
}
