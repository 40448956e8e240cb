/**
 The custody chain of one match: two one-time codes between payment and payout.
 Each API call is several awaits long, and calls interleave at every one of
 them, with each other and with every service that changes the status or the
 payment of the request.
 */
module Custody {
  import opened Common
  import opened MatchStates
  import opened Otp

  datatype Actor = Carrier | Sender | Stranger

  /** Where an API call or a payout job is. */
  datatype Call =
    | GeneratePickup(actor: Actor)
    | PickupAllowed
    | PickupStored
    | VerifyPickup(actor: Actor, input: int)
    | PickupRead(input: int, seen: OtpEntry)
    | PickupCounted(input: int, seen: OtpEntry)
    | PickupVerified
    | PickupHandedOver
    | GenerateDelivery(actor: Actor)
    | DeliveryAllowed
    | DeliveryStored
    | VerifyDelivery(actor: Actor, input: int)
    | DeliveryRead(input: int, seen: OtpEntry)
    | DeliveryCounted(input: int, seen: OtpEntry)
    | DeliveryVerified
    | DeliveryRecorded
    | PayoutJob
    | PayoutChecked
    | Finished
    | Rejected

  /** What happened, in order; a call is named by its number. */
  datatype Event =
    | PaidSeen(call: nat, payment: Payment)
    | PickupGenerated(call: nat, code: int)
    | PickupAccepted(code: int, actor: Actor)
    | TransitSeen(call: nat, status: Status)
    | DeliveryGenerated(call: nat, code: int)
    | DeliveryAccepted(code: int, actor: Actor)
    | PayoutReleased

  /** What the calls on one match share, and the log of what happened. */
  datatype Shared = Shared(status: Status, payment: Payment, pickup: Option<OtpEntry>, delivery: Option<OtpEntry>,
                           now: int, jobs: nat, log: seq<Event>)

  datatype Sys = Sys(shared: Shared, calls: seq<Call>)

  datatype Step =
    | Invoke(call: Call)
    | StartJob                     // the queue hands a payout job to a worker, possibly again
    | Advance(c: nat, code: int)   // `code` is what a generating step draws
    | OtherStatus(status: Status)  // accept, confirm, reject, dispute, SLA and request cancellation
    | OtherPayment(payment: Payment)
    | Tick(seconds: nat)

  predicate IsStart(call: Call) {
    call.GeneratePickup? || call.VerifyPickup? || call.GenerateDelivery? || call.VerifyDelivery?
  }

  /** The statuses services outside the custody chain write. */
  predicate WrittenByOthers(s: Status) {
    s == CarrierAccepted || s == SenderConfirmed || s == Active || s == Cancelled || s == Disputed
  }

  function Log(s: Shared, e: Event): Shared {
    s.(log := s.log + [e])
  }

  /** `verifyOTP` up to the attempts check. */
  predicate MayTry(entry: Option<OtpEntry>, now: int) {
    Visible(entry, now).Some? && entry.value.attempts < MAX_ATTEMPTS
  }

  function Counted(e: OtpEntry, now: int): Option<OtpEntry> {
    Some(OtpEntry(e.code, e.attempts + 1, now + OTP_TTL_SECONDS))
  }

  /** One await of call `c`, which stands at `call`. */
  function GeneratePickupStep(s: Shared, c: nat, call: Call, code: int): (Shared, Call) {
    match call
    case GeneratePickup(actor) =>
      if actor != Carrier || s.payment != Paid then (s, Rejected) else (Log(s, PaidSeen(c, s.payment)), PickupAllowed)
    case PickupAllowed => (Log(s, PickupGenerated(c, code)).(pickup := Generated(code, s.now)), PickupStored)
    case PickupStored => (s.(status := PickupPending), Finished)
    case _ => (s, call)
  }

  function VerifyPickupStep(s: Shared, call: Call): (Shared, Call) {
    match call
    case VerifyPickup(actor, input) =>
      (s, if actor != Sender || !MayTry(s.pickup, s.now) then Rejected else PickupRead(input, s.pickup.value))
    case PickupRead(input, seen) => (s.(pickup := Counted(seen, s.now)), PickupCounted(input, seen))
    case PickupCounted(input, seen) =>
      if input != seen.code then (s, Rejected) else (Log(s, PickupAccepted(input, Sender)).(pickup := None), PickupVerified)
    case PickupVerified => (s.(status := PickedUp), PickupHandedOver)
    case PickupHandedOver => (s.(status := InTransit), Finished)
    case _ => (s, call)
  }

  function GenerateDeliveryStep(s: Shared, c: nat, call: Call, code: int): (Shared, Call) {
    match call
    case GenerateDelivery(actor) =>
      if actor != Carrier || !InCustody(s.status) then (s, Rejected) else (Log(s, TransitSeen(c, s.status)), DeliveryAllowed)
    case DeliveryAllowed => (Log(s, DeliveryGenerated(c, code)).(delivery := Generated(code, s.now)), DeliveryStored)
    case DeliveryStored => (s.(status := DeliveryPending), Finished)
    case _ => (s, call)
  }

  function VerifyDeliveryStep(s: Shared, call: Call): (Shared, Call) {
    match call
    case VerifyDelivery(actor, input) =>
      (s, if actor != Sender || !MayTry(s.delivery, s.now) then Rejected else DeliveryRead(input, s.delivery.value))
    case DeliveryRead(input, seen) => (s.(delivery := Counted(seen, s.now)), DeliveryCounted(input, seen))
    case DeliveryCounted(input, seen) =>
      if input != seen.code then (s, Rejected) else (Log(s, DeliveryAccepted(input, Sender)).(delivery := None), DeliveryVerified)
    case DeliveryVerified => (s.(status := Delivered), DeliveryRecorded)
    case DeliveryRecorded => (s.(jobs := s.jobs + 1), Finished)
    case _ => (s, call)
  }

  /** The payout worker: a disputed match is skipped. */
  function PayoutStep(s: Shared, call: Call): (Shared, Call) {
    match call
    case PayoutJob => (s, if s.status == Disputed then Rejected else PayoutChecked)
    case PayoutChecked => (Log(s, PayoutReleased), Finished)
    case _ => (s, call)
  }

  datatype Role = PickupGenerator | PickupVerifier | DeliveryGenerator | DeliveryVerifier | Payer | Nobody

  function RoleOf(call: Call): Role {
    if call.GeneratePickup? || call.PickupAllowed? || call.PickupStored? then PickupGenerator
    else if call.VerifyPickup? || call.PickupRead? || call.PickupCounted? || call.PickupVerified? || call.PickupHandedOver? then PickupVerifier
    else if call.GenerateDelivery? || call.DeliveryAllowed? || call.DeliveryStored? then DeliveryGenerator
    else if call.VerifyDelivery? || call.DeliveryRead? || call.DeliveryCounted? || call.DeliveryVerified? || call.DeliveryRecorded? then DeliveryVerifier
    else if call.PayoutJob? || call.PayoutChecked? then Payer
    else Nobody
  }

  function Progress(s: Shared, c: nat, call: Call, code: int): (Shared, Call) {
    match RoleOf(call)
    case PickupGenerator => GeneratePickupStep(s, c, call, code)
    case PickupVerifier => VerifyPickupStep(s, call)
    case DeliveryGenerator => GenerateDeliveryStep(s, c, call, code)
    case DeliveryVerifier => VerifyDeliveryStep(s, call)
    case Payer => PayoutStep(s, call)
    case Nobody => (s, call)
  }

  function Moved(s: Sys, c: nat, to: (Shared, Call)): Sys
    requires c < |s.calls|
  {
    Sys(to.0, s.calls[c := to.1])
  }

  function Next(s: Sys, st: Step): Sys {
    match st
    case Invoke(call) => if IsStart(call) then s.(calls := s.calls + [call]) else s
    case StartJob => if s.shared.jobs > 0 then s.(calls := s.calls + [PayoutJob]) else s
    case Advance(c, code) => if c < |s.calls| then Moved(s, c, Progress(s.shared, c, s.calls[c], code)) else s
    case OtherStatus(status) => if WrittenByOthers(status) then s.(shared := s.shared.(status := status)) else s
    case OtherPayment(payment) => s.(shared := s.shared.(payment := payment))
    case Tick(seconds) => s.(shared := s.shared.(now := s.shared.now + seconds))
  }

  function Exec(s: Sys, run: seq<Step>): Sys
    decreases |run|
  {
    if run == [] then s else Exec(Next(s, run[0]), run[1..])
  }

  // ---------------------------------------------------------------- every event has its reason

  predicate PickupWasAccepted(log: seq<Event>) {
    exists k :: 0 <= k < |log| && log[k].PickupAccepted?
  }

  predicate PickupWasGenerated(log: seq<Event>, code: int) {
    exists k :: 0 <= k < |log| && log[k].PickupGenerated? && log[k].code == code
  }

  predicate TransitWasSeen(log: seq<Event>, call: nat) {
    exists k :: 0 <= k < |log| && log[k].TransitSeen? && log[k].call == call
  }

  predicate DeliveryWasGenerated(log: seq<Event>, code: int) {
    exists k :: 0 <= k < |log| && log[k].DeliveryGenerated? && log[k].code == code
  }

  predicate DeliveryWasAccepted(log: seq<Event>) {
    exists k :: 0 <= k < |log| && log[k].DeliveryAccepted?
  }

  /** The event at `k` follows from an earlier one. */
  predicate Justified(log: seq<Event>, k: nat)
    requires k < |log|
  {
    match log[k]
    case PaidSeen(_, payment) => payment == Paid
    case PickupGenerated(call, _) => PaidSeen(call, Paid) in log[..k]
    case PickupAccepted(code, actor) => actor == Sender && PickupWasGenerated(log[..k], code)
    case TransitSeen(_, status) => InCustody(status) && PickupWasAccepted(log[..k])
    case DeliveryGenerated(call, _) => TransitWasSeen(log[..k], call)
    case DeliveryAccepted(code, actor) => actor == Sender && DeliveryWasGenerated(log[..k], code)
    case PayoutReleased => DeliveryWasAccepted(log[..k])
  }

  predicate CallOk(log: seq<Event>, c: nat, call: Call) {
    match call
    case PickupAllowed => PaidSeen(c, Paid) in log
    case PickupRead(_, seen) => PickupWasGenerated(log, seen.code)
    case PickupCounted(_, seen) => PickupWasGenerated(log, seen.code)
    case PickupVerified => PickupWasAccepted(log)
    case PickupHandedOver => PickupWasAccepted(log)
    case DeliveryAllowed => TransitWasSeen(log, c)
    case DeliveryStored => PickupWasAccepted(log)
    case DeliveryRead(_, seen) => DeliveryWasGenerated(log, seen.code)
    case DeliveryCounted(_, seen) => DeliveryWasGenerated(log, seen.code)
    case DeliveryVerified => DeliveryWasAccepted(log)
    case DeliveryRecorded => DeliveryWasAccepted(log)
    case PayoutJob => DeliveryWasAccepted(log)
    case PayoutChecked => DeliveryWasAccepted(log)
    case _ => true
  }

  ghost predicate SharedOk(s: Shared) {
    && (forall k :: 0 <= k < |s.log| ==> Justified(s.log, k))
    && (s.pickup.Some? ==> PickupWasGenerated(s.log, s.pickup.value.code))
    && (s.delivery.Some? ==> DeliveryWasGenerated(s.log, s.delivery.value.code))
    && (InCustody(s.status) ==> PickupWasAccepted(s.log))
    && (s.jobs > 0 ==> DeliveryWasAccepted(s.log))
  }

  ghost predicate Inv(s: Sys) {
    SharedOk(s.shared) && forall c :: 0 <= c < |s.calls| ==> CallOk(s.shared.log, c, s.calls[c])
  }

  /** A match that has not left the proposal and payment stages, with no codes and nothing logged. */
  predicate Init(s: Sys) {
    && s.shared.pickup == None && s.shared.delivery == None && s.shared.jobs == 0 && s.shared.log == []
    && !InCustody(s.shared.status) && s.calls == []
  }

  // ---------------------------------------------------------------- proof

  lemma EstablishedStays(log: seq<Event>, e: Event)
    ensures PickupWasAccepted(log) ==> PickupWasAccepted(log + [e])
    ensures DeliveryWasAccepted(log) ==> DeliveryWasAccepted(log + [e])
    ensures forall code :: PickupWasGenerated(log, code) ==> PickupWasGenerated(log + [e], code)
    ensures forall code :: DeliveryWasGenerated(log, code) ==> DeliveryWasGenerated(log + [e], code)
    ensures forall call :: TransitWasSeen(log, call) ==> TransitWasSeen(log + [e], call)
    ensures forall x <- log :: x in log + [e]
  {
    assert forall k :: 0 <= k < |log| ==> (log + [e])[k] == log[k];
  }

  /** Nothing already established is lost when the log grows by a justified event. */
  lemma LogGrows(s: Shared, e: Event)
    requires SharedOk(s) && Justified(s.log + [e], |s.log|)
    ensures SharedOk(Log(s, e))
  {
    var log := s.log + [e];
    assert forall k :: 0 <= k < |s.log| ==> log[k] == s.log[k];
    forall k | 0 <= k < |log| ensures Justified(log, k) {
      if k < |s.log| {
        assert Justified(s.log, k);
        assert log[..k] == s.log[..k];
      }
    }
    EstablishedStays(s.log, e);
  }

  lemma LoggedFacts(log: seq<Event>, e: Event)
    ensures (log + [e])[..|log|] == log
    ensures e in log + [e]
    ensures e.PickupAccepted? ==> PickupWasAccepted(log + [e])
    ensures e.DeliveryAccepted? ==> DeliveryWasAccepted(log + [e])
    ensures e.PickupGenerated? ==> PickupWasGenerated(log + [e], e.code)
    ensures e.DeliveryGenerated? ==> DeliveryWasGenerated(log + [e], e.code)
    ensures e.TransitSeen? ==> TransitWasSeen(log + [e], e.call)
  {
    assert (log + [e])[|log|] == e;
  }

  lemma TransitMeansAccepted(s: Shared, c: nat)
    requires SharedOk(s) && TransitWasSeen(s.log, c)
    ensures PickupWasAccepted(s.log)
  {
    var k :| 0 <= k < |s.log| && s.log[k].TransitSeen? && s.log[k].call == c;
    assert Justified(s.log, k);
    var j :| 0 <= j < |s.log[..k]| && s.log[..k][j].PickupAccepted?;
    assert s.log[j].PickupAccepted?;
  }

  /** A step keeps what is shared in order, justifies where its call now stands, and logs at most one event. */
  ghost predicate StepOk(s: Shared, c: nat, r: (Shared, Call)) {
    && SharedOk(r.0) && CallOk(r.0.log, c, r.1)
    && (r.0.log == s.log || (|r.0.log| == |s.log| + 1 && r.0.log == s.log + [r.0.log[|s.log|]]))
  }

  lemma GeneratePickupKeeps(s: Shared, c: nat, call: Call, code: int)
    requires SharedOk(s) && CallOk(s.log, c, call)
    ensures StepOk(s, c, GeneratePickupStep(s, c, call, code))
  {
    var e := if call.PickupAllowed? then PickupGenerated(c, code) else PaidSeen(c, Paid);
    LoggedFacts(s.log, e);
    EstablishedStays(s.log, e);
    if call.PickupAllowed? || (call == GeneratePickup(Carrier) && s.payment == Paid) { LogGrows(s, e); }
  }

  lemma VerifyPickupKeeps(s: Shared, c: nat, call: Call)
    requires SharedOk(s) && CallOk(s.log, c, call)
    ensures StepOk(s, c, VerifyPickupStep(s, call))
  {
    if call.PickupCounted? && call.input == call.seen.code {
      var e := PickupAccepted(call.input, Sender);
      LoggedFacts(s.log, e);
      EstablishedStays(s.log, e);
      LogGrows(s, e);
    }
  }

  lemma GenerateDeliveryKeeps(s: Shared, c: nat, call: Call, code: int)
    requires SharedOk(s) && CallOk(s.log, c, call)
    ensures StepOk(s, c, GenerateDeliveryStep(s, c, call, code))
  {
    var e := if call.DeliveryAllowed? then DeliveryGenerated(c, code) else TransitSeen(c, s.status);
    LoggedFacts(s.log, e);
    EstablishedStays(s.log, e);
    if call.DeliveryAllowed? {
      TransitMeansAccepted(s, c);
      LogGrows(s, e);
    } else if call == GenerateDelivery(Carrier) && InCustody(s.status) {
      LogGrows(s, e);
    }
  }

  lemma VerifyDeliveryKeeps(s: Shared, c: nat, call: Call)
    requires SharedOk(s) && CallOk(s.log, c, call)
    ensures StepOk(s, c, VerifyDeliveryStep(s, call))
  {
    if call.DeliveryCounted? && call.input == call.seen.code {
      var e := DeliveryAccepted(call.input, Sender);
      LoggedFacts(s.log, e);
      EstablishedStays(s.log, e);
      LogGrows(s, e);
    }
  }

  lemma PayoutKeeps(s: Shared, c: nat, call: Call)
    requires SharedOk(s) && CallOk(s.log, c, call)
    ensures StepOk(s, c, PayoutStep(s, call))
  {
    if call.PayoutChecked? {
      LoggedFacts(s.log, PayoutReleased);
      LogGrows(s, PayoutReleased);
    }
  }

  lemma ProgressKeeps(s: Shared, c: nat, call: Call, code: int)
    requires SharedOk(s) && CallOk(s.log, c, call)
    ensures StepOk(s, c, Progress(s, c, call, code))
  {
    match RoleOf(call)
    case PickupGenerator => GeneratePickupKeeps(s, c, call, code);
    case PickupVerifier => VerifyPickupKeeps(s, c, call);
    case DeliveryGenerator => GenerateDeliveryKeeps(s, c, call, code);
    case DeliveryVerifier => VerifyDeliveryKeeps(s, c, call);
    case Payer => PayoutKeeps(s, c, call);
    case Nobody =>
  }

  lemma MovedKeeps(s: Sys, c: nat, r: (Shared, Call))
    requires Inv(s) && c < |s.calls| && StepOk(s.shared, c, r)
    ensures Inv(Moved(s, c, r))
  {
    var after := Moved(s, c, r);
    if r.0.log != s.shared.log { EstablishedStays(s.shared.log, r.0.log[|s.shared.log|]); }
    forall d | 0 <= d < |after.calls| ensures CallOk(after.shared.log, d, after.calls[d]) {
      assert CallOk(s.shared.log, d, s.calls[d]);
    }
  }

  lemma NextKeeps(s: Sys, st: Step)
    requires Inv(s)
    ensures Inv(Next(s, st))
  {
    if st.Advance? && st.c < |s.calls| {
      ProgressKeeps(s.shared, st.c, s.calls[st.c], st.code);
      MovedKeeps(s, st.c, Progress(s.shared, st.c, s.calls[st.c], st.code));
    }
  }

  lemma {:induction false} RunKeeps(s: Sys, run: seq<Step>)
    requires Inv(s)
    ensures Inv(Exec(s, run))
    decreases |run|
  {
    if run != [] {
      NextKeeps(s, run[0]);
      RunKeeps(Next(s, run[0]), run[1..]);
    }
  }

  /** Six events in order before position `p`: payment seen by the call that drew the pickup code, and so on to the delivery code. */
  predicate Chain(log: seq<Event>, p: nat, a: nat, b: nat, c: nat, d: nat, e: nat, f: nat) {
    && a < b < c < d < e < f < p <= |log|
    && log[b].PickupGenerated? && log[a] == PaidSeen(log[b].call, Paid)
    && log[c] == PickupAccepted(log[b].code, Sender)
    && log[d].TransitSeen? && (log[d].status == PickedUp || log[d].status == InTransit || log[d].status == DeliveryPending)
    && log[e].DeliveryGenerated? && log[e].call == log[d].call
    && log[f] == DeliveryAccepted(log[e].code, Sender)
  }

  ghost predicate HasChain(log: seq<Event>, p: nat) {
    exists a: nat, b: nat, c: nat, d: nat, e: nat, f: nat :: Chain(log, p, a, b, c, d, e, f)
  }

  lemma JustifiedChain(log: seq<Event>, p: nat)
    requires forall k :: 0 <= k < |log| ==> Justified(log, k)
    requires p < |log| && log[p] == PayoutReleased
    ensures HasChain(log, p)
  {
    assert Justified(log, p);
    var f: nat :| f < |log[..p]| && log[..p][f].DeliveryAccepted?;
    assert Justified(log, f);
    var e: nat :| e < |log[..f]| && log[..f][e].DeliveryGenerated? && log[..f][e].code == log[f].code;
    assert Justified(log, e);
    var d: nat :| d < |log[..e]| && log[..e][d].TransitSeen? && log[..e][d].call == log[e].call;
    assert Justified(log, d);
    var c: nat :| c < |log[..d]| && log[..d][c].PickupAccepted?;
    assert Justified(log, c);
    var b: nat :| b < |log[..c]| && log[..c][b].PickupGenerated? && log[..c][b].code == log[c].code;
    assert Justified(log, b);
    var a: nat :| a < |log[..b]| && log[..b][a] == PaidSeen(log[b].call, Paid);
    assert Chain(log, p, a, b, c, d, e, f);
  }

  /**
   No payout without the whole custody chain before it, under any interleaving
   of the calls with each other and with everything else that touches the match.
   */
  lemma PayoutHasChain(s0: Sys, run: seq<Step>, p: nat)
    requires Init(s0) && p < |Exec(s0, run).shared.log| && Exec(s0, run).shared.log[p] == PayoutReleased
    ensures HasChain(Exec(s0, run).shared.log, p)
  {
    RunKeeps(s0, run);
    JustifiedChain(Exec(s0, run).shared.log, p);
  }

  // ---------------------------------------------------------------- reachable states

  ghost predicate Reachable(s: Sys) {
    exists s0: Sys, run: seq<Step> :: Init(s0) && Exec(s0, run) == s
  }

  lemma {:induction false} ExecConcat(s: Sys, a: seq<Step>, b: seq<Step>)
    ensures Exec(s, a + b) == Exec(Exec(s, a), b)
    decreases |a|
  {
    if a == [] {
      assert a + b == b;
    } else {
      assert (a + b)[1..] == a[1..] + b;
      ExecConcat(Next(s, a[0]), a[1..], b);
    }
  }

  lemma ReachableOn(s: Sys, run: seq<Step>)
    requires Reachable(s)
    ensures Reachable(Exec(s, run))
  {
    var s0: Sys, before: seq<Step> :| Init(s0) && Exec(s0, before) == s;
    ExecConcat(s0, before, run);
    assert Exec(s0, before + run) == Exec(s, run);
  }

  lemma ReachablePayout(s: Sys, p: nat)
    requires Reachable(s) && p < |s.shared.log| && s.shared.log[p] == PayoutReleased
    ensures HasChain(s.shared.log, p)
  {
    var s0: Sys, run: seq<Step> :| Init(s0) && Exec(s0, run) == s;
    PayoutHasChain(s0, run, p);
  }
}
