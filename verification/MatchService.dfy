/**
 The four OTP calls and the status writes of the match service as they run on
 one match, one call at a time. Each is proved to be a run of the interleaved
 model in `Custody`.
 */
module MatchService {
  import opened Common
  import opened MatchStates
  import opened Otp
  import opened Custody

  datatype TimelineEvent =
    | MatchProposed | AcceptedByCarrier | ConfirmedBySender | PaymentDone | PickupOtpGenerated | PickupOtpVerified
    | DeliveryOtpGenerated | DeliveryOtpVerified | Completed | MatchCancelled | MatchDisputed

  function TimelineEventOf(s: Status): TimelineEvent {
    match s
    case Proposed => MatchProposed
    case CarrierAccepted => AcceptedByCarrier
    case SenderConfirmed => ConfirmedBySender
    case Active => PaymentDone
    case PickupPending => PickupOtpGenerated
    case PickedUp => PickupOtpVerified
    case InTransit => PickupOtpVerified
    case DeliveryPending => DeliveryOtpGenerated
    case Delivered => DeliveryOtpVerified
    case Cancelled => MatchCancelled
    case Disputed => MatchDisputed
  }

  // ---------------------------------------------------------------- an uninterrupted call

  /** How many awaits a call has before it at most. */
  function Rank(call: Call): nat {
    match call
    case GeneratePickup(_) => 3 case PickupAllowed => 2 case PickupStored => 1
    case GenerateDelivery(_) => 3 case DeliveryAllowed => 2 case DeliveryStored => 1
    case VerifyPickup(_, _) => 5 case PickupRead(_, _) => 4 case PickupCounted(_, _) => 3
    case PickupVerified => 2 case PickupHandedOver => 1
    case VerifyDelivery(_, _) => 5 case DeliveryRead(_, _) => 4 case DeliveryCounted(_, _) => 3
    case DeliveryVerified => 2 case DeliveryRecorded => 1
    case PayoutJob => 2 case PayoutChecked => 1
    case Finished => 0 case Rejected => 0
  }

  lemma RankFalls(s: Shared, c: nat, call: Call, code: int)
    ensures Rank(call) > 0 ==> Rank(Progress(s, c, call, code).1) < Rank(call)
    ensures Rank(call) == 0 ==> Progress(s, c, call, code) == (s, call)
  {
  }

  /** The awaits of call `c` one after another with nothing in between. */
  function Finish(s: Shared, c: nat, call: Call, code: int): (Shared, Call)
    decreases Rank(call)
  {
    RankFalls(s, c, call, code);
    if Rank(call) == 0 then (s, call)
    else
      var (after, next) := Progress(s, c, call, code);
      Finish(after, c, next, code)
  }

  function Advances(c: nat, n: nat, code: int): seq<Step> {
    seq(n, _ => Advance(c, code))
  }

  /** Some steps that bring a call in, and its awaits. */
  function WholeRun(c: nat, first: Step, call: Call, code: int): seq<Step> {
    [first] + Advances(c, Rank(call), code)
  }

  lemma {:induction false} FinishIsRun(s: Sys, c: nat, n: nat, code: int)
    requires c < |s.calls| && n >= Rank(s.calls[c])
    ensures Exec(s, Advances(c, n, code)) == Moved(s, c, Finish(s.shared, c, s.calls[c], code))
    decreases n
  {
    var run := Advances(c, n, code);
    if n > 0 {
      assert run[1..] == Advances(c, n - 1, code);
      RankFalls(s.shared, c, s.calls[c], code);
      var next := Next(s, Advance(c, code));
      FinishIsRun(next, c, n - 1, code);
      var last := Finish(s.shared, c, s.calls[c], code).1;
      assert next.calls[c := last] == s.calls[c := last];
    } else {
      assert s.calls[c := s.calls[c]] == s.calls;
    }
  }

  function With(s: Sys, call: Call): Sys {
    s.(calls := s.calls + [call])
  }

  /** `after` is what a call makes of `before`; from a reachable state it is reachable. */
  ghost predicate Ran(before: Sys, first: Step, call: Call, code: int, after: Sys) {
    && Exec(before, WholeRun(|before.calls|, first, call, code)) == after
    && (Reachable(before) ==> Reachable(after))
  }

  /** An uninterrupted call is a run of the interleaved model, so everything proved there holds of it. */
  lemma WholeCallIsRun(s: Sys, first: Step, call: Call, code: int)
    requires Next(s, first) == s.(calls := s.calls + [call])
    ensures var r := Finish(s.shared, |s.calls|, call, code);
            Ran(s, first, call, code, Sys(r.0, s.calls + [r.1]))
  {
    var c, run := |s.calls|, WholeRun(|s.calls|, first, call, code);
    var s1 := Next(s, first);
    assert run[1..] == Advances(c, Rank(call), code);
    FinishIsRun(s1, c, Rank(call), code);
    var r := Finish(s.shared, c, call, code);
    assert s1.calls[c := r.1] == s.calls + [r.1];
    if Reachable(s) { ReachableOn(s, run); }
  }

  // ---------------------------------------------------------------- what an uninterrupted call does

  lemma GeneratePickupWhole(s: Shared, c: nat, actor: Actor, code: int)
    ensures Finish(s, c, GeneratePickup(actor), code) ==
            if actor == Carrier && s.payment == Paid then
              (s.(pickup := Generated(code, s.now), status := PickupPending,
                  log := s.log + [PaidSeen(c, Paid)] + [PickupGenerated(c, code)]), Finished)
            else (s, Rejected)
  {
    if actor == Carrier && s.payment == Paid {
      var s1 := Log(s, PaidSeen(c, Paid));
      var s2 := Log(s1, PickupGenerated(c, code)).(pickup := Generated(code, s.now));
      assert Finish(s, c, GeneratePickup(actor), code) == Finish(s1, c, PickupAllowed, code) == Finish(s2, c, PickupStored, code);
    }
  }

  lemma GenerateDeliveryWhole(s: Shared, c: nat, actor: Actor, code: int)
    ensures Finish(s, c, GenerateDelivery(actor), code) ==
            if actor == Carrier && InCustody(s.status) then
              (s.(delivery := Generated(code, s.now), status := DeliveryPending,
                  log := s.log + [TransitSeen(c, s.status)] + [DeliveryGenerated(c, code)]), Finished)
            else (s, Rejected)
  {
    if actor == Carrier && InCustody(s.status) {
      var s1 := Log(s, TransitSeen(c, s.status));
      var s2 := Log(s1, DeliveryGenerated(c, code)).(delivery := Generated(code, s.now));
      assert Finish(s, c, GenerateDelivery(actor), code) == Finish(s1, c, DeliveryAllowed, code) == Finish(s2, c, DeliveryStored, code);
    }
  }

  lemma HandedOver(s: Shared, c: nat)
    ensures Finish(s, c, PickupVerified, 0) == (s.(status := InTransit), Finished)
  {
    assert Finish(s, c, PickupVerified, 0) == Finish(s.(status := PickedUp), c, PickupHandedOver, 0);
  }

  lemma PickupCompared(s: Shared, c: nat, input: int, seen: OtpEntry)
    ensures Finish(s, c, PickupCounted(input, seen), 0) ==
            if input != seen.code then (s, Rejected)
            else (s.(pickup := None, status := InTransit, log := s.log + [PickupAccepted(input, Sender)]), Finished)
  {
    if input != seen.code {
      assert Finish(s, c, PickupCounted(input, seen), 0) == Finish(s, c, Rejected, 0);
    } else {
      var after := Log(s, PickupAccepted(input, Sender)).(pickup := None);
      assert Finish(s, c, PickupCounted(input, seen), 0) == Finish(after, c, PickupVerified, 0);
      HandedOver(after, c);
    }
  }

  lemma VerifyPickupWhole(s: Shared, c: nat, actor: Actor, input: int)
    ensures Finish(s, c, VerifyPickup(actor, input), 0) ==
            if actor != Sender || !MayTry(s.pickup, s.now) then (s, Rejected)
            else if input != s.pickup.value.code then (s.(pickup := Counted(s.pickup.value, s.now)), Rejected)
            else (s.(pickup := None, status := InTransit, log := s.log + [PickupAccepted(input, Sender)]), Finished)
  {
    if actor == Sender && MayTry(s.pickup, s.now) {
      var e := s.pickup.value;
      var s1 := s.(pickup := Counted(e, s.now));
      assert Finish(s, c, VerifyPickup(actor, input), 0) == Finish(s, c, PickupRead(input, e), 0);
      assert Finish(s, c, PickupRead(input, e), 0) == Finish(s1, c, PickupCounted(input, e), 0);
      PickupCompared(s1, c, input, e);
    }
  }

  lemma Recorded(s: Shared, c: nat)
    ensures Finish(s, c, DeliveryVerified, 0) == (s.(status := Delivered, jobs := s.jobs + 1), Finished)
  {
    assert Finish(s, c, DeliveryVerified, 0) == Finish(s.(status := Delivered), c, DeliveryRecorded, 0);
  }

  lemma DeliveryCompared(s: Shared, c: nat, input: int, seen: OtpEntry)
    ensures Finish(s, c, DeliveryCounted(input, seen), 0) ==
            if input != seen.code then (s, Rejected)
            else (s.(delivery := None, status := Delivered, jobs := s.jobs + 1, log := s.log + [DeliveryAccepted(input, Sender)]), Finished)
  {
    if input != seen.code {
      assert Finish(s, c, DeliveryCounted(input, seen), 0) == Finish(s, c, Rejected, 0);
    } else {
      var after := Log(s, DeliveryAccepted(input, Sender)).(delivery := None);
      assert Finish(s, c, DeliveryCounted(input, seen), 0) == Finish(after, c, DeliveryVerified, 0);
      Recorded(after, c);
    }
  }

  lemma VerifyDeliveryWhole(s: Shared, c: nat, actor: Actor, input: int)
    ensures Finish(s, c, VerifyDelivery(actor, input), 0) ==
            if actor != Sender || !MayTry(s.delivery, s.now) then (s, Rejected)
            else if input != s.delivery.value.code then (s.(delivery := Counted(s.delivery.value, s.now)), Rejected)
            else (s.(delivery := None, status := Delivered, jobs := s.jobs + 1, log := s.log + [DeliveryAccepted(input, Sender)]), Finished)
  {
    if actor == Sender && MayTry(s.delivery, s.now) {
      var e := s.delivery.value;
      var s1 := s.(delivery := Counted(e, s.now));
      assert Finish(s, c, VerifyDelivery(actor, input), 0) == Finish(s, c, DeliveryRead(input, e), 0);
      assert Finish(s, c, DeliveryRead(input, e), 0) == Finish(s1, c, DeliveryCounted(input, e), 0);
      DeliveryCompared(s1, c, input, e);
    }
  }

  lemma PayoutWhole(s: Shared, c: nat)
    ensures Finish(s, c, PayoutJob, 0) == if s.status == Disputed then (s, Rejected) else (Log(s, PayoutReleased), Finished)
  {
    if s.status != Disputed {
      assert Finish(s, c, PayoutJob, 0) == Finish(s, c, PayoutChecked, 0);
    }
  }

  lemma GeneratePickupRan(s: Sys, actor: Actor, code: int)
    ensures Ran(s, Invoke(GeneratePickup(actor)), GeneratePickup(actor), code,
                if actor == Carrier && s.shared.payment == Paid then
                  Sys(s.shared.(pickup := Generated(code, s.shared.now), status := PickupPending,
                      log := s.shared.log + [PaidSeen(|s.calls|, Paid)] + [PickupGenerated(|s.calls|, code)]), s.calls + [Finished])
                else With(s, Rejected))
  {
    GeneratePickupWhole(s.shared, |s.calls|, actor, code);
    WholeCallIsRun(s, Invoke(GeneratePickup(actor)), GeneratePickup(actor), code);
  }

  lemma GenerateDeliveryRan(s: Sys, actor: Actor, code: int)
    ensures Ran(s, Invoke(GenerateDelivery(actor)), GenerateDelivery(actor), code,
                if actor == Carrier && InCustody(s.shared.status) then
                  Sys(s.shared.(delivery := Generated(code, s.shared.now), status := DeliveryPending,
                      log := s.shared.log + [TransitSeen(|s.calls|, s.shared.status)] + [DeliveryGenerated(|s.calls|, code)]), s.calls + [Finished])
                else With(s, Rejected))
  {
    GenerateDeliveryWhole(s.shared, |s.calls|, actor, code);
    WholeCallIsRun(s, Invoke(GenerateDelivery(actor)), GenerateDelivery(actor), code);
  }

  function PickupPassed(s: Sys, input: int): Sys {
    Sys(s.shared.(pickup := None, status := InTransit, log := s.shared.log + [PickupAccepted(input, Sender)]), s.calls + [Finished])
  }

  lemma PickupRight(s: Sys, actor: Actor, input: int)
    requires actor == Sender && MayTry(s.shared.pickup, s.shared.now) && input == s.shared.pickup.value.code
    ensures Ran(s, Invoke(VerifyPickup(actor, input)), VerifyPickup(actor, input), 0, PickupPassed(s, input))
  {
    VerifyPickupWhole(s.shared, |s.calls|, actor, input);
    WholeCallIsRun(s, Invoke(VerifyPickup(actor, input)), VerifyPickup(actor, input), 0);
  }

  lemma PickupRefused(s: Sys, actor: Actor, input: int)
    requires actor != Sender || !MayTry(s.shared.pickup, s.shared.now)
    ensures Ran(s, Invoke(VerifyPickup(actor, input)), VerifyPickup(actor, input), 0, With(s, Rejected))
  {
    VerifyPickupWhole(s.shared, |s.calls|, actor, input);
    WholeCallIsRun(s, Invoke(VerifyPickup(actor, input)), VerifyPickup(actor, input), 0);
  }

  lemma PickupWrong(s: Sys, actor: Actor, input: int)
    requires actor == Sender && MayTry(s.shared.pickup, s.shared.now) && input != s.shared.pickup.value.code
    ensures Ran(s, Invoke(VerifyPickup(actor, input)), VerifyPickup(actor, input), 0,
                Sys(s.shared.(pickup := Counted(s.shared.pickup.value, s.shared.now)), s.calls + [Rejected]))
  {
    VerifyPickupWhole(s.shared, |s.calls|, actor, input);
    WholeCallIsRun(s, Invoke(VerifyPickup(actor, input)), VerifyPickup(actor, input), 0);
  }

  function DeliveryPassed(s: Sys, input: int): Sys {
    Sys(s.shared.(delivery := None, status := Delivered, jobs := s.shared.jobs + 1, log := s.shared.log + [DeliveryAccepted(input, Sender)]), s.calls + [Finished])
  }

  lemma DeliveryRight(s: Sys, actor: Actor, input: int)
    requires actor == Sender && MayTry(s.shared.delivery, s.shared.now) && input == s.shared.delivery.value.code
    ensures Ran(s, Invoke(VerifyDelivery(actor, input)), VerifyDelivery(actor, input), 0, DeliveryPassed(s, input))
  {
    VerifyDeliveryWhole(s.shared, |s.calls|, actor, input);
    WholeCallIsRun(s, Invoke(VerifyDelivery(actor, input)), VerifyDelivery(actor, input), 0);
  }

  lemma DeliveryRefused(s: Sys, actor: Actor, input: int)
    requires actor != Sender || !MayTry(s.shared.delivery, s.shared.now)
    ensures Ran(s, Invoke(VerifyDelivery(actor, input)), VerifyDelivery(actor, input), 0, With(s, Rejected))
  {
    VerifyDeliveryWhole(s.shared, |s.calls|, actor, input);
    WholeCallIsRun(s, Invoke(VerifyDelivery(actor, input)), VerifyDelivery(actor, input), 0);
  }

  lemma DeliveryWrong(s: Sys, actor: Actor, input: int)
    requires actor == Sender && MayTry(s.shared.delivery, s.shared.now) && input != s.shared.delivery.value.code
    ensures Ran(s, Invoke(VerifyDelivery(actor, input)), VerifyDelivery(actor, input), 0,
                Sys(s.shared.(delivery := Counted(s.shared.delivery.value, s.shared.now)), s.calls + [Rejected]))
  {
    VerifyDeliveryWhole(s.shared, |s.calls|, actor, input);
    WholeCallIsRun(s, Invoke(VerifyDelivery(actor, input)), VerifyDelivery(actor, input), 0);
  }

  lemma PayoutRan(s: Sys)
    requires s.shared.jobs > 0
    ensures Ran(s, StartJob, PayoutJob, 0,
                if s.shared.status == Disputed then With(s, Rejected) else Sys(Log(s.shared, PayoutReleased), s.calls + [Finished]))
  {
    PayoutWhole(s.shared, |s.calls|);
    WholeCallIsRun(s, StartJob, PayoutJob, 0);
  }

  // ---------------------------------------------------------------- as it runs

  datatype TripStatus = TripActive | TripInTransit | TripCompleted

  /** The match no longer keeps its trip open. */
  predicate Closed(s: Status) {
    s == Delivered || s == Cancelled || s == Disputed
  }

  class MatchDoc {
    var status: Status
    var deliveryStatus: DeliveryStatus
    var payment: Payment
    var pickup: Option<OtpEntry>
    var delivery: Option<OtpEntry>
    var now: int
    var payoutJobs: nat
    var timeline: seq<TimelineEvent>
    var tripStatus: TripStatus
    var otherMatches: seq<Status>  // of the same trip
    ghost var calls: seq<Call>
    ghost var log: seq<Event>

    ghost function At(): Sys
      reads this
    {
      Sys(Shared(status, payment, pickup, delivery, now, payoutJobs, log), calls)
    }

    constructor (payment: Payment, otherMatches: seq<Status>)
      ensures Init(At()) && Reachable(At()) && status == Proposed && this.payment == payment && Agrees()
    {
      status, deliveryStatus := Proposed, RequestMatched;
      this.payment, this.otherMatches := payment, otherMatches;
      pickup, delivery, now, payoutJobs, timeline, tripStatus := None, None, 0, 0, [MatchProposed], TripActive;
      calls, log := [], [];
      new;
      assert Exec(At(), []) == At();
    }

    /** The request shows the status its match calls for. */
    predicate Agrees()
      reads this
    {
      deliveryStatus == DeliveryStatusOf(status)
    }

    method UpdateMatchStatus(to: Status)
      modifies this`status, this`deliveryStatus, this`timeline
      ensures status == to && Agrees() && timeline == old(timeline) + [TimelineEventOf(to)]
      ensures to == Proposed || to == CarrierAccepted || to == SenderConfirmed || to == Active ==> deliveryStatus == RequestMatched
      ensures to == CarrierAccepted ==> timeline == old(timeline) + [AcceptedByCarrier]
      ensures to == SenderConfirmed ==> timeline == old(timeline) + [ConfirmedBySender]
      ensures to == Active ==> timeline == old(timeline) + [PaymentDone]
    {
      status := to;
      timeline := timeline + [TimelineEventOf(to)];
      deliveryStatus := DeliveryStatusOf(to);
    }

    /** `carrierReject`, `senderReject` and `disputeMatch`: no check on the current status. */
    method Stop(to: Status)
      requires Reachable(At()) && (to == Cancelled || to == Disputed)
      modifies this`status, this`deliveryStatus, this`timeline
      ensures At() == Exec(old(At()), [OtherStatus(to)]) && Reachable(At()) && Agrees() && status == to
      ensures deliveryStatus == if to == Cancelled then RequestCancelled else RequestPending
      ensures timeline == old(timeline) + [if to == Cancelled then MatchCancelled else MatchDisputed]
    {
      ReachableOn(At(), [OtherStatus(to)]);
      assert [OtherStatus(to)][1..] == [];
      UpdateMatchStatus(to);
    }

    method GeneratePickupOtp(actor: Actor, code: int) returns (ok: bool)
      requires Reachable(At())
      modifies this`status, this`deliveryStatus, this`timeline, this`pickup, this`calls, this`log
      ensures Ran(old(At()), Invoke(GeneratePickup(actor)), GeneratePickup(actor), code, At()) && Reachable(At())
      ensures ok <==> actor == Carrier && payment == Paid
      ensures ok ==> Agrees() && status == PickupPending && deliveryStatus == PickupOtpSent
      ensures ok ==> pickup == Some(OtpEntry(code, 0, now + 600))
      ensures timeline == old(timeline) + if ok then [PickupOtpGenerated, PickupOtpGenerated] else []
      ensures !ok ==> status == old(status) && deliveryStatus == old(deliveryStatus) && pickup == old(pickup)
    {
      GeneratePickupRan(At(), actor, code);
      ok := actor == Carrier && payment == Paid;
      if !ok {
        calls := calls + [Rejected];
        return;
      }
      log, calls := log + [PaidSeen(|calls|, Paid)] + [PickupGenerated(|calls|, code)], calls + [Finished];
      pickup := Some(OtpEntry(code, 0, now + OTP_TTL_SECONDS));
      UpdateMatchStatus(PickupPending);
      timeline := timeline + [PickupOtpGenerated];
      deliveryStatus := PickupOtpSent;
    }

    /** `verifyOTP` on the pickup code, behind the role check. */
    method TryPickup(actor: Actor, input: int) returns (ok: bool)
      modifies this`pickup, this`calls
      ensures ok <==>
                && actor == Sender && old(pickup).Some? && now < old(pickup).value.expiresAt
                && old(pickup).value.attempts < 3 && old(pickup).value.code == input
      ensures pickup ==
              if ok then None
              else if actor != Sender || old(pickup).None? || now >= old(pickup).value.expiresAt || old(pickup).value.attempts >= 3 then old(pickup)
              else Some(OtpEntry(old(pickup).value.code, old(pickup).value.attempts + 1, now + 600))
      ensures calls == old(calls) + [if ok then Finished else Rejected]
    {
      ok := actor == Sender && MayTry(pickup, now);
      if ok {
        var raw := pickup.value;
        pickup := Some(OtpEntry(raw.code, raw.attempts + 1, now + OTP_TTL_SECONDS));
        ok := input == raw.code;
        if ok {
          pickup := None;
        }
      }
      calls := calls + [if ok then Finished else Rejected];
    }

    /** The writes after a pickup code was accepted. */
    method HandOver()
      modifies this`status, this`deliveryStatus, this`timeline, this`tripStatus
      ensures status == InTransit && Agrees() && tripStatus == TripInTransit
      ensures timeline == old(timeline) + [PickupOtpVerified, PickupOtpVerified, PickupOtpVerified]
    {
      UpdateMatchStatus(PickedUp);
      timeline := timeline + [PickupOtpVerified];
      deliveryStatus := RequestPickedUp;
      tripStatus := TripInTransit;
      UpdateMatchStatus(InTransit);
    }

    method VerifyPickupOtp(actor: Actor, input: int) returns (ok: bool)
      requires Reachable(At())
      modifies this`status, this`deliveryStatus, this`timeline, this`pickup, this`tripStatus, this`calls, this`log
      ensures Ran(old(At()), Invoke(VerifyPickup(actor, input)), VerifyPickup(actor, input), 0, At()) && Reachable(At())
      ensures ok <==>
                && actor == Sender && old(pickup).Some? && now < old(pickup).value.expiresAt
                && old(pickup).value.attempts < 3 && old(pickup).value.code == input
      ensures ok ==> Agrees() && status == InTransit && deliveryStatus == RequestInTransit && pickup == None
      ensures tripStatus == if ok then TripInTransit else old(tripStatus)
      ensures timeline == old(timeline) + if ok then [PickupOtpVerified, PickupOtpVerified, PickupOtpVerified] else []
      ensures !ok ==> status == old(status) && deliveryStatus == old(deliveryStatus)
    {
      ghost var before := At();
      ok := TryPickup(actor, input);
      if ok {
        log := log + [PickupAccepted(input, Sender)];
        HandOver();
        PickupRight(before, actor, input);
        assert At() == PickupPassed(before, input);
      } else if actor != Sender || !MayTry(before.shared.pickup, now) {
        PickupRefused(before, actor, input);
      } else {
        PickupWrong(before, actor, input);
      }
    }

    method GenerateDeliveryOtp(actor: Actor, code: int) returns (ok: bool)
      requires Reachable(At())
      modifies this`status, this`deliveryStatus, this`timeline, this`delivery, this`calls, this`log
      ensures Ran(old(At()), Invoke(GenerateDelivery(actor)), GenerateDelivery(actor), code, At()) && Reachable(At())
      ensures ok <==>
                actor == Carrier && (old(status) == PickedUp || old(status) == InTransit || old(status) == DeliveryPending)
      ensures ok ==> Agrees() && status == DeliveryPending && deliveryStatus == DeliveryOtpSent
      ensures ok ==> delivery == Some(OtpEntry(code, 0, now + 600))
      ensures timeline == old(timeline) + if ok then [DeliveryOtpGenerated, DeliveryOtpGenerated] else []
      ensures !ok ==> status == old(status) && deliveryStatus == old(deliveryStatus) && delivery == old(delivery)
    {
      GenerateDeliveryRan(At(), actor, code);
      ok := actor == Carrier && InCustody(status);
      if !ok {
        calls := calls + [Rejected];
        return;
      }
      log, calls := log + [TransitSeen(|calls|, status)] + [DeliveryGenerated(|calls|, code)], calls + [Finished];
      delivery := Some(OtpEntry(code, 0, now + OTP_TTL_SECONDS));
      UpdateMatchStatus(DeliveryPending);
      timeline := timeline + [DeliveryOtpGenerated];
      deliveryStatus := DeliveryOtpSent;
    }

    /** `verifyOTP` on the delivery code, behind the role check. */
    method TryDelivery(actor: Actor, input: int) returns (ok: bool)
      modifies this`delivery, this`calls
      ensures ok <==>
                && actor == Sender && old(delivery).Some? && now < old(delivery).value.expiresAt
                && old(delivery).value.attempts < 3 && old(delivery).value.code == input
      ensures delivery ==
              if ok then None
              else if actor != Sender || old(delivery).None? || now >= old(delivery).value.expiresAt || old(delivery).value.attempts >= 3 then old(delivery)
              else Some(OtpEntry(old(delivery).value.code, old(delivery).value.attempts + 1, now + 600))
      ensures calls == old(calls) + [if ok then Finished else Rejected]
    {
      ok := actor == Sender && MayTry(delivery, now);
      if ok {
        var raw := delivery.value;
        delivery := Some(OtpEntry(raw.code, raw.attempts + 1, now + OTP_TTL_SECONDS));
        ok := input == raw.code;
        if ok {
          delivery := None;
        }
      }
      calls := calls + [if ok then Finished else Rejected];
    }

    /** The writes after a delivery code was accepted. The trip is done when none of its matches is open. */
    method Complete()
      modifies this`status, this`deliveryStatus, this`timeline, this`tripStatus, this`payoutJobs
      ensures status == Delivered && Agrees() && payoutJobs == old(payoutJobs) + 1
      ensures tripStatus == if forall x <- otherMatches :: Closed(x) then TripCompleted else old(tripStatus)
      ensures timeline == old(timeline) + [DeliveryOtpVerified, DeliveryOtpVerified, Completed]
    {
      UpdateMatchStatus(Delivered);
      timeline := timeline + [DeliveryOtpVerified, Completed];
      deliveryStatus := RequestDelivered;
      if forall x <- otherMatches + [status] :: Closed(x) {
        assert forall x <- otherMatches :: x in otherMatches + [status];
        tripStatus := TripCompleted;
      }
      payoutJobs := payoutJobs + 1;
    }

    method VerifyDeliveryOtp(actor: Actor, input: int) returns (ok: bool)
      requires Reachable(At())
      modifies this`status, this`deliveryStatus, this`timeline, this`delivery, this`tripStatus, this`payoutJobs, this`calls, this`log
      ensures Ran(old(At()), Invoke(VerifyDelivery(actor, input)), VerifyDelivery(actor, input), 0, At()) && Reachable(At())
      ensures ok <==>
                && actor == Sender && old(delivery).Some? && now < old(delivery).value.expiresAt
                && old(delivery).value.attempts < 3 && old(delivery).value.code == input
      ensures ok ==> Agrees() && status == Delivered && deliveryStatus == RequestDelivered && delivery == None
      ensures payoutJobs == old(payoutJobs) + if ok then 1 else 0
      ensures tripStatus == if ok && (forall x <- otherMatches :: Closed(x)) then TripCompleted else old(tripStatus)
      ensures timeline == old(timeline) + if ok then [DeliveryOtpVerified, DeliveryOtpVerified, Completed] else []
      ensures !ok ==> status == old(status) && deliveryStatus == old(deliveryStatus)
    {
      ghost var before := At();
      ok := TryDelivery(actor, input);
      if ok {
        log := log + [DeliveryAccepted(input, Sender)];
        Complete();
        DeliveryRight(before, actor, input);
        assert At() == DeliveryPassed(before, input);
      } else if actor != Sender || !MayTry(before.shared.delivery, now) {
        DeliveryRefused(before, actor, input);
      } else {
        DeliveryWrong(before, actor, input);
      }
    }

    /** A worker takes a payout job. What it releases has the whole custody chain behind it. */
    method RunPayoutJob() returns (released: bool)
      requires Reachable(At()) && payoutJobs > 0
      modifies this`calls, this`log
      ensures Ran(old(At()), StartJob, PayoutJob, 0, At()) && Reachable(At())
      ensures released <==> status != Disputed
      ensures log == old(log) + if released then [PayoutReleased] else []
      ensures released ==> HasChain(log, |old(log)|)
    {
      PayoutRan(At());
      ghost var p := |log|;
      released := status != Disputed;
      if released {
        log := log + [PayoutReleased];
      }
      calls := calls + [if released then Finished else Rejected];
      if released {
        assert log[p] == PayoutReleased;
        ReachablePayout(At(), p);
      }
    }
  }
}
