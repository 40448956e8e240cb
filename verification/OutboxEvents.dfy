/**
 The outbox collection and one live relay, as steps. Each send, each mark and
 each release can fail on its own; the relay can crash at any point and be
 restarted; other services append events, and the TTL monitor prunes finished
 ones.
 */
module OutboxEvents {
  import opened Common

  const OUTBOX_RETENTION_MS := 7 * 24 * 60 * 60 * 1000

  datatype Status = Pending | Processing | Published | Failed

  datatype Event = Event(status: Status, attempts: nat, createdAt: int, availableAt: int, expiresAt: Option<int>)

  datatype Slot = Live(e: Event) | Pruned

  /** Where the relay is in its flush; the head of a queue is the event in hand. */
  datatype Relay =
    | Down
    | Idle
    | Claiming(batch: seq<nat>, left: nat, now: int)
    | Sending(queue: seq<nat>)
    | Sent(queue: seq<nat>)
    | Caught(queue: seq<nat>)

  /** `claims` and `sends` record, per event, how often it was claimed and how often Kafka received it. */
  datatype Sys = Sys(slots: seq<Slot>, claims: seq<nat>, sends: seq<nat>, relay: Relay, restarts: nat, maxAttempts: int)

  datatype SendResult = Delivered | DeliveredButThrew | NotSent

  datatype WriteResult = Applied | NotApplied | AppliedButThrew

  datatype Step =
    | Append(createdAt: int, availableAt: int)
    | StartFlush(limit: nat, now: int)
    | ClaimOne(id: nat)
    | EndClaims
    | ClaimFails                 // the claim throws and the flush is abandoned
    | ClaimLost(id: nat)         // so does one that was applied
    | Send(send: SendResult)
    | Mark(result: WriteResult, now: int)
    | Release(result: WriteResult, now: int)
    | Crash
    | Restart(now: int)
    | Prune(id: nat, now: int)

  predicate Terminal(st: Status) {
    st == Published || st == Failed
  }

  predicate Available(slots: seq<Slot>, id: nat, now: int) {
    id < |slots| && slots[id].Live? && slots[id].e.status == Pending && slots[id].e.availableAt <= now
  }

  /** What `findOneAndUpdate` with the sort may pick: any available event with the least creation time. */
  predicate IsOldest(slots: seq<Slot>, id: nat, now: int) {
    Available(slots, id, now) &&
    forall k :: 0 <= k < |slots| && Available(slots, k, now) ==> slots[id].e.createdAt <= slots[k].e.createdAt
  }

  predicate NoneAvailable(slots: seq<Slot>, now: int) {
    forall k :: 0 <= k < |slots| ==> !Available(slots, k, now)
  }

  function Pow2(n: nat): nat {
    if n == 0 then 1 else 2 * Pow2(n - 1)
  }

  /** Exponential backoff, from one second up to the 30 second cap. */
  function RetryDelayMs(attempts: nat): int {
    Min(30000, 1000 * Pow2(Max(0, attempts - 1)))
  }

  lemma {:induction false} PowersGrow(a: nat, b: nat)
    requires a <= b
    ensures 1 <= Pow2(a) <= Pow2(b)
    decreases b
  {
    if a < b {
      PowersGrow(a, b - 1);
    } else if a > 0 {
      PowersGrow(a - 1, a - 1);
    }
  }

  /** Later attempts never wait less, and after five doublings the wait no longer grows. */
  lemma DelayGrows(a: nat, b: nat)
    requires a <= b
    ensures 1000 <= RetryDelayMs(a) <= RetryDelayMs(b) <= 30000
    ensures a >= 6 ==> RetryDelayMs(a) == 30000
  {
    PowersGrow(Max(0, a - 1), Max(0, b - 1));
    PowersGrow(0, Max(0, a - 1));
    if a >= 6 {
      PowersGrow(5, a - 1);
      assert Pow2(5) == 32;
    }
  }

  /** One second, doubled with each further attempt until the cap. */
  lemma DelayDoubles(attempts: nat)
    ensures RetryDelayMs(0) == RetryDelayMs(1) == 1000
    ensures attempts >= 1 ==> RetryDelayMs(attempts + 1) == Min(30000, 2 * RetryDelayMs(attempts))
  {
    assert Pow2(0) == 1;
    if attempts >= 1 { assert Pow2(attempts) == 2 * Pow2(attempts - 1); }
  }

  function Claimed(e: Event): Event {
    e.(status := Processing, attempts := e.attempts + 1)
  }

  function MarkedPublished(e: Event, now: int): Event {
    e.(status := Published, expiresAt := Some(now + OUTBOX_RETENTION_MS))
  }

  function Released(e: Event, now: int, maxAttempts: int): Event {
    if e.attempts >= maxAttempts then e.(status := Failed, expiresAt := Some(now + OUTBOX_RETENTION_MS))
    else e.(status := Pending, availableAt := now + RetryDelayMs(e.attempts))
  }

  function Requeued(slots: seq<Slot>, now: int): seq<Slot> {
    seq(|slots|, i requires 0 <= i < |slots| =>
      if slots[i].Live? && slots[i].e.status == Processing then Live(slots[i].e.(status := Pending, availableAt := now))
      else slots[i])
  }

  function After(queue: seq<nat>): Relay
    requires queue != []
  {
    if |queue| == 1 then Idle else Sending(queue[1..])
  }

  function Put(s: Sys, id: nat, e: Event): Sys
    requires id < |s.slots|
  {
    s.(slots := s.slots[id := Live(e)])
  }

  predicate InHand(s: Sys, queue: seq<nat>) {
    queue != [] && queue[0] < |s.slots| == |s.sends| && |s.claims| == |s.slots|
  }

  /** One step; a step that is not enabled changes nothing. */
  function Next(s: Sys, st: Step): Sys {
    match st
    case Append(createdAt, availableAt) =>
      s.(slots := s.slots + [Live(Event(Pending, 0, createdAt, availableAt, None))], claims := s.claims + [0], sends := s.sends + [0])
    case StartFlush(limit, now) =>
      if s.relay == Idle then s.(relay := Claiming([], limit, now)) else s
    case ClaimOne(id) =>
      if s.relay.Claiming? && s.relay.left > 0 && IsOldest(s.slots, id, s.relay.now) && id < |s.claims| then
        Put(s, id, Claimed(s.slots[id].e))
          .(claims := s.claims[id := s.claims[id] + 1],
            relay := Claiming(s.relay.batch + [id], s.relay.left - 1, s.relay.now))
      else s
    case ClaimLost(id) =>
      if s.relay.Claiming? && s.relay.left > 0 && IsOldest(s.slots, id, s.relay.now) && id < |s.claims| then
        Put(s, id, Claimed(s.slots[id].e)).(claims := s.claims[id := s.claims[id] + 1], relay := Idle)
      else s
    case EndClaims =>
      if s.relay.Claiming? && (s.relay.left == 0 || NoneAvailable(s.slots, s.relay.now)) then
        s.(relay := if s.relay.batch == [] then Idle else Sending(s.relay.batch))
      else s
    case ClaimFails =>
      if s.relay.Claiming? then s.(relay := Idle) else s
    case Send(send) =>
      if s.relay.Sending? && InHand(s, s.relay.queue) then
        var id := s.relay.queue[0];
        s.(sends := if send == NotSent then s.sends else s.sends[id := s.sends[id] + 1],
           relay := if send == Delivered then Sent(s.relay.queue) else Caught(s.relay.queue))
      else s
    case Mark(result, now) =>
      if s.relay.Sent? && InHand(s, s.relay.queue) then
        var id := s.relay.queue[0];
        (if result == NotApplied || s.slots[id].Pruned? then s else Put(s, id, MarkedPublished(s.slots[id].e, now)))
          .(relay := if result == Applied then After(s.relay.queue) else Caught(s.relay.queue))
      else s
    case Release(result, now) =>
      if s.relay.Caught? && InHand(s, s.relay.queue) then
        var id := s.relay.queue[0];
        (if result == NotApplied || s.slots[id].Pruned? then s else Put(s, id, Released(s.slots[id].e, now, s.maxAttempts)))
          .(relay := if result == Applied then After(s.relay.queue) else Idle)
      else s
    case Crash => s.(relay := Down)
    case Restart(now) =>
      if s.relay == Down then s.(slots := Requeued(s.slots, now), relay := Idle, restarts := s.restarts + 1) else s
    case Prune(id, now) =>
      if id < |s.slots| && s.slots[id].Live? && s.slots[id].e.expiresAt.Some? && s.slots[id].e.expiresAt.value <= now then
        s.(slots := s.slots[id := Pruned])
      else s
  }

  function Exec(s: Sys, run: seq<Step>): Sys
    decreases |run|
  {
    if run == [] then s else Exec(Next(s, run[0]), run[1..])
  }

  // ---------------------------------------------------------------- safety

  /** The attempts an event may use between restarts; at least the one that is always made. */
  function Cap(maxAttempts: int): nat {
    Max(maxAttempts, 1)
  }

  predicate Settled(s: Sys, i: nat)
    requires i < |s.claims| == |s.sends|
  {
    s.sends[i] >= 1 || s.claims[i] >= s.maxAttempts
  }

  /**
   One event at any moment. An expiry date is only ever set once the event was
   sent or its attempts were used up, so no event is pruned before that.
   */
  ghost predicate SlotOk(s: Sys, i: nat)
    requires i < |s.slots| == |s.claims| == |s.sends|
  {
    && s.sends[i] <= s.claims[i] <= Cap(s.maxAttempts) + s.restarts
    && (s.slots[i].Pruned? ==> Settled(s, i))
    && (s.slots[i].Live? ==>
          var e := s.slots[i].e;
          && e.attempts == s.claims[i]
          && (Terminal(e.status) ==> e.expiresAt.Some?)
          && (e.expiresAt.Some? ==> Settled(s, i))
          && (e.status == Published ==> s.sends[i] >= 1)
          && (e.status == Failed ==> e.attempts >= s.maxAttempts)
          && (e.status == Pending ==> e.attempts < Cap(s.maxAttempts) + s.restarts))
  }

  /** An event the relay holds: claimed, and since then not sent. It may have been pruned under the relay's hands. */
  predicate Fresh(s: Sys, id: nat) {
    && id < |s.slots| == |s.claims| == |s.sends|
    && (s.slots[id].Live? ==> s.slots[id].e.status == Processing) && s.sends[id] < s.claims[id]
  }

  predicate Distinct(ids: seq<nat>) {
    forall i, j :: 0 <= i < j < |ids| ==> ids[i] != ids[j]
  }

  ghost predicate HeadHeld(s: Sys, queue: seq<nat>) {
    && queue != [] && Distinct(queue)
    && queue[0] < |s.slots| == |s.claims| == |s.sends|
    && forall i :: 1 <= i < |queue| ==> Fresh(s, queue[i])
  }

  ghost predicate RelayOk(s: Sys) {
    match s.relay
    case Down => true
    case Idle => true
    case Claiming(batch, left, now) => Distinct(batch) && forall i :: 0 <= i < |batch| ==> Fresh(s, batch[i])
    case Sending(queue) => queue != [] && Distinct(queue) && forall i :: 0 <= i < |queue| ==> Fresh(s, queue[i])
    case Sent(queue) =>
      && HeadHeld(s, queue) && s.sends[queue[0]] >= 1
      && (s.slots[queue[0]].Live? ==> s.slots[queue[0]].e.status == Processing)
    case Caught(queue) =>
      && HeadHeld(s, queue)
      && (s.slots[queue[0]].Live? ==> s.slots[queue[0]].e.status == Processing || s.slots[queue[0]].e.status == Published)
  }

  ghost predicate Inv(s: Sys) {
    && |s.slots| == |s.claims| == |s.sends|
    && (forall i :: 0 <= i < |s.slots| ==> SlotOk(s, i))
    && RelayOk(s)
  }

  /** Started, nothing claimed yet. */
  predicate Init(s: Sys) {
    && |s.slots| == |s.claims| == |s.sends| && s.relay == Idle && s.restarts == 0
    && forall i :: 0 <= i < |s.slots| ==>
         s.claims[i] == 0 && s.sends[i] == 0 && s.slots[i].Live? && s.slots[i].e.status == Pending
         && s.slots[i].e.attempts == 0 && s.slots[i].e.expiresAt == None
  }

  lemma FlushStepKeeps(s: Sys, st: Step)
    requires Inv(s) && (st.StartFlush? || st.EndClaims? || st.ClaimFails? || st.Crash?)
    ensures Inv(Next(s, st)) && Next(s, st).slots == s.slots
  {
    var after := Next(s, st);
    forall i | 0 <= i < |after.slots| ensures SlotOk(after, i) {
      assert SlotOk(s, i);
    }
    forall id | Fresh(s, id) ensures Fresh(after, id) {}
  }

  lemma AppendKeeps(s: Sys, createdAt: int, availableAt: int)
    requires Inv(s)
    ensures Inv(Next(s, Append(createdAt, availableAt)))
  {
    var after := Next(s, Append(createdAt, availableAt));
    forall i | 0 <= i < |after.slots| ensures SlotOk(after, i) {
      if i < |s.slots| { assert SlotOk(s, i); }
    }
    forall id | Fresh(s, id) ensures Fresh(after, id) {}
  }

  lemma ClaimKeeps(s: Sys, id: nat)
    requires Inv(s) && Next(s, ClaimOne(id)) != s
    ensures Inv(Next(s, ClaimOne(id)))
  {
    var after := Next(s, ClaimOne(id));
    assert SlotOk(s, id);
    forall i | 0 <= i < |after.slots| ensures SlotOk(after, i) {
      assert SlotOk(s, i);
    }
    forall i | 0 <= i < |after.relay.batch| ensures Fresh(after, after.relay.batch[i]) {
      if i < |s.relay.batch| { assert Fresh(s, s.relay.batch[i]); }
    }
  }

  lemma ClaimLostKeeps(s: Sys, id: nat)
    requires Inv(s) && Next(s, ClaimLost(id)) != s
    ensures Inv(Next(s, ClaimLost(id)))
  {
    var after := Next(s, ClaimLost(id));
    assert SlotOk(s, id);
    forall i | 0 <= i < |after.slots| ensures SlotOk(after, i) {
      assert SlotOk(s, i);
    }
  }

  lemma RestartKeeps(s: Sys, now: int)
    requires Inv(s)
    ensures Inv(Next(s, Restart(now)))
    ensures forall i :: 0 <= i < |s.slots| && !(s.slots[i].Live? && s.slots[i].e.status == Processing) ==>
              Next(s, Restart(now)).slots[i] == s.slots[i]
  {
    var after := Next(s, Restart(now));
    forall i | 0 <= i < |after.slots| ensures SlotOk(after, i) {
      assert SlotOk(s, i);
    }
  }

  /** The rest of the queue is untouched by what happens to its head. */
  lemma TailFresh(s: Sys, s': Sys, queue: seq<nat>)
    requires HeadHeld(s, queue)
    requires |s'.slots| == |s.slots| && |s'.claims| == |s.claims| && |s'.sends| == |s.sends|
    requires forall k :: 0 <= k < |s.slots| && k != queue[0] ==>
               s'.slots[k] == s.slots[k] && s'.claims[k] == s.claims[k] && s'.sends[k] == s.sends[k]
    ensures forall i :: 1 <= i < |queue| ==> Fresh(s', queue[i])
  {
    forall i | 1 <= i < |queue| ensures Fresh(s', queue[i]) {
      assert Fresh(s, queue[i]) && queue[i] != queue[0];
    }
  }

  lemma SendKeeps(s: Sys, send: SendResult)
    requires Inv(s)
    ensures Inv(Next(s, Send(send))) && Next(s, Send(send)).slots == s.slots
  {
    var after := Next(s, Send(send));
    if after != s {
      var queue := s.relay.queue;
      assert Fresh(s, queue[0]);
      assert HeadHeld(s, queue);
      TailFresh(s, after, queue);
      forall i | 0 <= i < |after.slots| ensures SlotOk(after, i) {
        assert SlotOk(s, i);
      }
    }
  }

  /** After the head is finished with, the relay goes on with the rest. */
  lemma HeadDone(s: Sys, s': Sys, queue: seq<nat>, slot: Slot)
    requires Inv(s) && HeadHeld(s, queue) && (s.relay == Sent(queue) || s.relay == Caught(queue))
    requires s' == s.(slots := s.slots[queue[0] := slot], relay := s'.relay)
    requires s'.relay == After(queue) || s'.relay == Idle
             || (s'.relay == Caught(queue) && (slot.Live? ==> slot.e.status == Processing || slot.e.status == Published))
    requires SlotOk(s', queue[0])
    ensures Inv(s')
  {
    TailFresh(s, s', queue);
    forall i | 0 <= i < |s'.slots| ensures SlotOk(s', i) {
      assert SlotOk(s, i);
    }
    if s'.relay.Sending? {
      var rest := queue[1..];
      assert s'.relay.queue == rest;
      forall i | 0 <= i < |rest| ensures Fresh(s', rest[i]) {
        assert rest[i] == queue[i + 1];
      }
    }
  }

  lemma MarkKeeps(s: Sys, result: WriteResult, now: int)
    requires Inv(s)
    ensures Inv(Next(s, Mark(result, now)))
  {
    var s' := Next(s, Mark(result, now));
    if s' != s {
      var queue := s.relay.queue;
      var was := s.slots[queue[0]];
      assert SlotOk(s, queue[0]);
      var slot := if result == NotApplied || was.Pruned? then was else Live(MarkedPublished(was.e, now));
      assert s'.slots == s.slots[queue[0] := slot];
      HeadDone(s, s', queue, slot);
    }
  }

  lemma ReleaseKeeps(s: Sys, result: WriteResult, now: int)
    requires Inv(s)
    ensures Inv(Next(s, Release(result, now)))
  {
    var s' := Next(s, Release(result, now));
    if s' != s {
      var queue := s.relay.queue;
      var was := s.slots[queue[0]];
      assert SlotOk(s, queue[0]);
      var slot := if result == NotApplied || was.Pruned? then was else Live(Released(was.e, now, s.maxAttempts));
      assert s'.slots == s.slots[queue[0] := slot];
      HeadDone(s, s', queue, slot);
    }
  }

  /** Pruning can hit an event the relay holds: one whose mark was applied and released again. */
  lemma PruneKeeps(s: Sys, st: Step)
    requires Inv(s) && st.Prune? && Next(s, st) != s
    ensures Inv(Next(s, st)) && Settled(s, st.id)
  {
    var after := Next(s, st);
    assert SlotOk(s, st.id);
    forall i | 0 <= i < |after.slots| ensures SlotOk(after, i) {
      assert SlotOk(s, i);
    }
    if s.relay.Claiming? {
      forall i | 0 <= i < |s.relay.batch| ensures Fresh(after, s.relay.batch[i]) { assert Fresh(s, s.relay.batch[i]); }
    } else if s.relay.Sending? {
      forall i | 0 <= i < |s.relay.queue| ensures Fresh(after, s.relay.queue[i]) { assert Fresh(s, s.relay.queue[i]); }
    } else if s.relay.Sent? || s.relay.Caught? {
      forall i | 1 <= i < |s.relay.queue| ensures Fresh(after, s.relay.queue[i]) { assert Fresh(s, s.relay.queue[i]); }
    }
  }

  lemma StepKeeps(s: Sys, st: Step)
    requires Inv(s)
    ensures Inv(Next(s, st)) && Next(s, st).maxAttempts == s.maxAttempts && |s.slots| <= |Next(s, st).slots|
  {
    if Next(s, st) != s {
      match st
      case Append(createdAt, availableAt) => AppendKeeps(s, createdAt, availableAt);
      case ClaimOne(id) => ClaimKeeps(s, id);
      case ClaimLost(id) => ClaimLostKeeps(s, id);
      case Restart(now) => RestartKeeps(s, now);
      case Send(send) => SendKeeps(s, send);
      case Mark(result, now) => MarkKeeps(s, result, now);
      case Release(result, now) => ReleaseKeeps(s, result, now);
      case Prune(id, _) => PruneKeeps(s, st);
      case _ => FlushStepKeeps(s, st);
    }
  }

  /** The invariant holds along every run. */
  lemma {:induction false} OutboxSafety(s: Sys, run: seq<Step>)
    requires Inv(s)
    ensures Inv(Exec(s, run)) && Exec(s, run).maxAttempts == s.maxAttempts && |s.slots| <= |Exec(s, run).slots|
    decreases |run|
  {
    if run != [] {
      StepKeeps(s, run[0]);
      OutboxSafety(Next(s, run[0]), run[1..]);
    }
  }

  lemma InitInv(s0: Sys)
    requires Init(s0)
    ensures Inv(s0)
  {
    forall i | 0 <= i < |s0.slots| ensures SlotOk(s0, i) {}
  }

  /**
   Safety over whole runs with one live relay, for every pattern of failures,
   lost replies included: published means sent, failed means the attempts are
   used up, finished events have an expiry date, no event is pruned that was
   neither sent nor out of attempts, and neither attempts nor sends exceed the
   allowance plus one per restart.
   */
  lemma EventSafety(s0: Sys, run: seq<Step>, i: nat)
    requires Init(s0) && i < |Exec(s0, run).slots|
    ensures var s := Exec(s0, run);
            && |s.slots| == |s.claims| == |s.sends|
            && s.sends[i] <= s.claims[i] <= Cap(s0.maxAttempts) + s.restarts
            && (s.slots[i].Pruned? ==> s.sends[i] >= 1 || s.claims[i] >= s0.maxAttempts)
            && (s.slots[i].Live? ==>
                  && s.slots[i].e.attempts == s.claims[i]
                  && (Terminal(s.slots[i].e.status) ==> s.slots[i].e.expiresAt.Some?)
                  && (s.slots[i].e.status == Published ==> s.sends[i] >= 1)
                  && (s.slots[i].e.status == Failed ==> s.slots[i].e.attempts >= s0.maxAttempts))
  {
    InitInv(s0);
    OutboxSafety(s0, run);
    assert SlotOk(Exec(s0, run), i);
  }

  // ---------------------------------------------------------------- when no reply of an applied mark is lost

  /** A mark that is applied is also reported as applied. */
  predicate Honest(st: Step) {
    !(st.Mark? && st.result == AppliedButThrew)
  }

  predicate ExpiresWhenFinished(slot: Slot) {
    slot.Live? && slot.e.expiresAt.Some? ==> Terminal(slot.e.status)
  }

  /** No event carries an expiry date unless it is finished, and the relay is not about to release a published one. */
  predicate Unrevived(s: Sys) {
    && (forall i :: 0 <= i < |s.slots| ==> ExpiresWhenFinished(s.slots[i]))
    && (s.relay.Caught? && s.relay.queue != [] && s.relay.queue[0] < |s.slots| ==>
          (s.slots[s.relay.queue[0]].Live? ==> s.slots[s.relay.queue[0]].e.status == Processing))
  }

  predicate SlotStays(a: Slot, b: Slot) {
    && (a.Live? && a.e.status == Published ==> b == a || b == Pruned)
    && (a.Pruned? ==> b.Pruned?)
  }

  /** Published is for good: the event stays as it is until the TTL monitor prunes it. */
  predicate PublishedStays(a: Sys, b: Sys) {
    && |a.slots| <= |b.slots|
    && forall i :: 0 <= i < |a.slots| ==> SlotStays(a.slots[i], b.slots[i])
  }

  lemma HonestStep(s: Sys, st: Step)
    requires Inv(s) && Unrevived(s) && Honest(st)
    ensures Unrevived(Next(s, st)) && PublishedStays(s, Next(s, st))
  {
    var after := Next(s, st);
    forall i | 0 <= i < |after.slots| ensures ExpiresWhenFinished(after.slots[i]) && (i < |s.slots| ==> SlotStays(s.slots[i], after.slots[i])) {
      if i < |s.slots| { assert SlotOk(s, i) && ExpiresWhenFinished(s.slots[i]); }
    }
  }

  lemma {:induction false} HonestRun(s: Sys, run: seq<Step>)
    requires Inv(s) && Unrevived(s) && forall st <- run :: Honest(st)
    ensures Inv(Exec(s, run)) && Unrevived(Exec(s, run)) && PublishedStays(s, Exec(s, run))
    decreases |run|
  {
    if run != [] {
      StepKeeps(s, run[0]);
      HonestStep(s, run[0]);
      HonestRun(Next(s, run[0]), run[1..]);
      forall i | 0 <= i < |s.slots| ensures SlotStays(s.slots[i], Exec(s, run).slots[i]) {
        assert SlotStays(s.slots[i], Next(s, run[0]).slots[i]);
      }
    }
  }

  /** A run whose successive states are known. */
  lemma {:induction false} ExecAlong(states: seq<Sys>, run: seq<Step>)
    requires |states| == |run| + 1
    requires forall i :: 0 <= i < |run| ==> Next(states[i], run[i]) == states[i + 1]
    ensures Exec(states[0], run) == states[|run|]
    decreases |run|
  {
    if run != [] {
      ExecAlong(states[1..], run[1..]);
    }
  }

  function OneEvent(e: Event, claims: nat, sends: nat, relay: Relay): Sys {
    Sys([Live(e)], [claims], [sends], relay, 0, 8)
  }

  function LostReplyRun(now: int): seq<Step> {
    [StartFlush(1, now), ClaimOne(0), EndClaims, Send(Delivered), Mark(AppliedButThrew, now), Release(Applied, now)]
  }

  function LostReplyStates(now: int): seq<Sys> {
    var e := Event(Pending, 0, now, now, None);
    var p := MarkedPublished(Claimed(e), now);
    [OneEvent(e, 0, 0, Idle), OneEvent(e, 0, 0, Claiming([], 1, now)), OneEvent(Claimed(e), 1, 0, Claiming([0], 0, now)),
     OneEvent(Claimed(e), 1, 0, Sending([0])), OneEvent(Claimed(e), 1, 1, Sent([0])), OneEvent(p, 1, 1, Caught([0])),
     OneEvent(p.(status := Pending, availableAt := now + 1000), 1, 1, Idle)]
  }

  lemma LostReplyClaims(now: int, i: nat)
    requires i < 3
    ensures Next(LostReplyStates(now)[i], LostReplyRun(now)[i]) == LostReplyStates(now)[i + 1]
  {
    var e := Event(Pending, 0, now, now, None);
    var before := OneEvent(e, 0, 0, Claiming([], 1, now));
    assert Available(before.slots, 0, now) && IsOldest(before.slots, 0, now);
    assert Put(before, 0, Claimed(e)).slots == [Live(Claimed(e))];
    assert [0][0 := 1] == [1];
    var none: seq<nat> := [];
    assert none + [0] == [0];
    if i == 1 {
      assert Next(before, ClaimOne(0)) == OneEvent(Claimed(e), 1, 0, Claiming([0], 0, now));
    }
  }

  lemma LostReplyWrites(now: int, i: nat)
    requires 3 <= i < 6
    ensures Next(LostReplyStates(now)[i], LostReplyRun(now)[i]) == LostReplyStates(now)[i + 1]
  {
    var c := Claimed(Event(Pending, 0, now, now, None));
    var p := MarkedPublished(c, now);
    assert forall x, y: Slot :: [x][0 := y] == [y];
    assert [0][0 := 1] == [1];
    assert RetryDelayMs(1) == 1000;
    if i == 3 {
      assert Next(OneEvent(c, 1, 0, Sending([0])), Send(Delivered)) == OneEvent(c, 1, 1, Sent([0]));
    } else if i == 4 {
      assert Next(OneEvent(c, 1, 1, Sent([0])), Mark(AppliedButThrew, now)) == OneEvent(p, 1, 1, Caught([0]));
    } else {
      assert Next(OneEvent(p, 1, 1, Caught([0])), Release(Applied, now))
             == OneEvent(p.(status := Pending, availableAt := now + 1000), 1, 1, Idle);
    }
  }

  /**
   When a mark reaches the store but its reply is lost, the relay releases the
   event: a published event goes back to pending, and still carries its TTL.
   */
  lemma LostMarkReplyRevives(now: int)
    ensures var s0 := OneEvent(Event(Pending, 0, now, now, None), 0, 0, Idle);
            && Init(s0)
            && Exec(s0, LostReplyRun(now)[..5]).slots == [Live(Event(Published, 1, now, now, Some(now + OUTBOX_RETENTION_MS)))]
            && Exec(s0, LostReplyRun(now)).slots == [Live(Event(Pending, 1, now, now + 1000, Some(now + OUTBOX_RETENTION_MS)))]
  {
    forall i | 0 <= i < 6 ensures Next(LostReplyStates(now)[i], LostReplyRun(now)[i]) == LostReplyStates(now)[i + 1] {
      if i < 3 { LostReplyClaims(now, i); } else { LostReplyWrites(now, i); }
    }
    ExecAlong(LostReplyStates(now), LostReplyRun(now));
    ExecAlong(LostReplyStates(now)[..6], LostReplyRun(now)[..5]);
  }

  lemma {:induction false} ExecSplit(s: Sys, run: seq<Step>, k: nat)
    requires k <= |run|
    ensures Exec(s, run) == Exec(Exec(s, run[..k]), run[k..])
    decreases k
  {
    if k > 0 {
      ExecSplit(Next(s, run[0]), run[1..], k - 1);
      assert run[..k][0] == run[0] && run[..k][1..] == run[1..][..k - 1] && run[1..][k - 1..] == run[k..];
    } else {
      assert run[..0] == [] && run[0..] == run;
    }
  }

  predicate MarksWithin(run: seq<Step>, results: set<WriteResult>) {
    forall st <- run :: st.Mark? ==> st.result in results
  }

  /** From any moment of the run on, what is published then stays published. */
  ghost predicate PublishedForGood(s0: Sys, run: seq<Step>) {
    forall k :: 0 <= k <= |run| ==> PublishedStays(Exec(s0, run[..k]), Exec(s0, run))
  }

  lemma HonestRunsKeep(s0: Sys, run: seq<Step>)
    requires Init(s0) && forall st <- run :: Honest(st)
    ensures PublishedForGood(s0, run)
  {
    InitInv(s0);
    forall k | 0 <= k <= |run| ensures PublishedStays(Exec(s0, run[..k]), Exec(s0, run)) {
      ExecSplit(s0, run, k);
      HonestRun(s0, run[..k]);
      HonestRun(Exec(s0, run[..k]), run[k..]);
    }
  }

  /** Published events stay published in every run exactly when no applied mark can lose its reply. */
  lemma PublishedForGoodIff(results: set<WriteResult>)
    ensures (forall s0: Sys, run: seq<Step> :: Init(s0) && MarksWithin(run, results) ==> PublishedForGood(s0, run))
            <==> AppliedButThrew !in results
  {
    if AppliedButThrew !in results {
      forall s0: Sys, run: seq<Step> | Init(s0) && MarksWithin(run, results) ensures PublishedForGood(s0, run) {
        HonestRunsKeep(s0, run);
      }
    } else {
      LostMarkReplyRevives(0);
      var s0, run := OneEvent(Event(Pending, 0, 0, 0, None), 0, 0, Idle), LostReplyRun(0);
      assert forall st <- run :: st.Mark? ==> st.result == AppliedButThrew;
      var a, b := Exec(s0, run[..5]), Exec(s0, run);
      assert a.slots[0].e.status == Published && b.slots[0] != a.slots[0] && b.slots[0] != Pruned;
      assert !PublishedStays(a, b);
      assert !PublishedForGood(s0, run);
    }
  }

  /** Only finished events carry an expiry date at the end of the run. */
  predicate ExpiryMeansFinished(s: Sys) {
    forall slot <- s.slots :: ExpiresWhenFinished(slot)
  }

  /** An expiry date always means finished, in every run, under exactly the same condition. */
  lemma ExpiryMeansFinishedIff(results: set<WriteResult>)
    ensures (forall s0: Sys, run: seq<Step> :: Init(s0) && MarksWithin(run, results) ==> ExpiryMeansFinished(Exec(s0, run)))
            <==> AppliedButThrew !in results
  {
    if AppliedButThrew !in results {
      forall s0: Sys, run: seq<Step> | Init(s0) && MarksWithin(run, results) ensures ExpiryMeansFinished(Exec(s0, run)) {
        InitInv(s0);
        HonestRun(s0, run);
      }
    } else {
      LostMarkReplyRevives(0);
      var s0, run := OneEvent(Event(Pending, 0, 0, 0, None), 0, 0, Idle), LostReplyRun(0);
      assert forall st <- run :: st.Mark? ==> st.result == AppliedButThrew;
      assert MarksWithin(run, results);
      var b := Exec(s0, run);
      assert b.slots[0] in b.slots && !ExpiresWhenFinished(b.slots[0]);
      assert !ExpiryMeansFinished(b);
    }
  }

  // ---------------------------------------------------------------- events left behind

  /** The relay still has the event to deal with. */
  predicate InHands(relay: Relay, id: nat) {
    match relay
    case Claiming(batch, _, _) => id in batch
    case Sending(queue) => id in queue
    case Sent(queue) => id in queue
    case Caught(queue) => id in queue
    case _ => false
  }

  predicate IsProcessing(slot: Slot) {
    slot.Live? && slot.e.status == Processing
  }

  /** Every processing event is in the hands of the relay, or the relay is down and will requeue it. */
  predicate Attended(s: Sys) {
    s.relay == Down || forall i: nat :: i < |s.slots| && IsProcessing(s.slots[i]) ==> InHands(s.relay, i)
  }

  /** No event is left processing behind an idle relay. */
  predicate NoneStranded(s: Sys) {
    s.relay == Idle ==> forall slot <- s.slots :: !IsProcessing(slot)
  }

  datatype Failure = LaterClaimFails | ClaimReplyLost | ReleaseNotApplied | ReleaseReplyLost

  /** The ways a flush may be abandoned. A first claim that fails and a crash are always among them. */
  predicate Admitted(s: Sys, st: Step, failures: set<Failure>) {
    match st
    case ClaimFails => s.relay.Claiming? && s.relay.batch != [] ==> LaterClaimFails in failures
    case ClaimLost(_) => ClaimReplyLost in failures
    case Release(result, _) =>
      && (result == NotApplied ==> ReleaseNotApplied in failures)
      && (result == AppliedButThrew ==> ReleaseReplyLost in failures)
    case _ => true
  }

  predicate RunAdmitted(s: Sys, run: seq<Step>, failures: set<Failure>)
    decreases |run|
  {
    run == [] || (Admitted(s, run[0], failures) && RunAdmitted(Next(s, run[0]), run[1..], failures))
  }

  /** What is left of the queue after its head is done with. */
  lemma AfterHolds(queue: seq<nat>, id: nat)
    requires queue != [] && id in queue && id != queue[0]
    ensures InHands(After(queue), id)
  {
    var k :| 0 <= k < |queue| && queue[k] == id;
    assert queue[1..][k - 1] == id;
  }

  lemma AttendedStep(s: Sys, st: Step)
    requires Inv(s) && Attended(s) && Admitted(s, st, {})
    ensures Attended(Next(s, st))
  {
    var after := Next(s, st);
    if after != s && after.relay != Down && s.relay != Down {
      forall i: nat | i < |after.slots| && IsProcessing(after.slots[i]) ensures InHands(after.relay, i) {
        if (st.Mark? || st.Release?) && i < |s.slots| && i in s.relay.queue && i != s.relay.queue[0] {
          AfterHolds(s.relay.queue, i);
        }
      }
    }
  }

  lemma {:induction false} AttendedRun(s: Sys, run: seq<Step>)
    requires Inv(s) && Attended(s) && RunAdmitted(s, run, {})
    ensures Attended(Exec(s, run))
    decreases |run|
  {
    if run != [] {
      StepKeeps(s, run[0]);
      AttendedStep(s, run[0]);
      AttendedRun(Next(s, run[0]), run[1..]);
    }
  }

  /** An event nobody attends to: processing, never finished before, and not in the hands of the relay. */
  predicate Stranded(s: Sys, i: nat) {
    i < |s.slots| && IsProcessing(s.slots[i]) && s.slots[i].e.expiresAt == None && !InHands(s.relay, i)
  }

  lemma StrandedStep(s: Sys, st: Step, i: nat)
    requires Stranded(s, i) && !st.Restart?
    ensures Stranded(Next(s, st), i)
  {
  }

  /** Until the relay is restarted nothing will ever happen to it. */
  lemma {:induction false} StrandedForGood(s: Sys, run: seq<Step>, i: nat)
    requires Stranded(s, i) && forall st <- run :: !st.Restart?
    ensures Stranded(Exec(s, run), i)
    decreases |run|
  {
    if run != [] {
      StrandedStep(s, run[0], i);
      StrandedForGood(Next(s, run[0]), run[1..], i);
    }
  }

  function NewEvent(): Event {
    Event(Pending, 0, 0, 0, None)
  }

  /** Two new events and a relay that is polling, has claimed so many of them, and so on. */
  function TwoEvents(claimed: nat, relay: Relay): Sys {
    var e, c := Live(NewEvent()), Live(Claimed(NewEvent()));
    Sys([if claimed >= 1 then c else e, if claimed >= 2 then c else e], [if claimed >= 1 then 1 else 0, if claimed >= 2 then 1 else 0],
        [0, 0], relay, 0, 8)
  }

  function NoIds(): seq<nat> {
    []
  }

  lemma ClaimFirst(st: Step)
    requires st == ClaimOne(0) || st == ClaimLost(0)
    ensures Next(TwoEvents(0, Claiming(NoIds(), 2, 0)), st) == TwoEvents(1, if st.ClaimOne? then Claiming([0], 1, 0) else Idle)
  {
    var s := TwoEvents(0, Claiming(NoIds(), 2, 0));
    assert IsOldest(s.slots, 0, 0);
    assert s.slots[0 := Live(Claimed(NewEvent()))] == TwoEvents(1, Idle).slots && s.claims[0 := 1] == TwoEvents(1, Idle).claims;
    assert NoIds() + [0] == [0];
  }

  lemma ClaimSecond()
    ensures Next(TwoEvents(1, Claiming([0], 1, 0)), ClaimOne(1)) == TwoEvents(2, Claiming([0, 1], 0, 0))
  {
    var s := TwoEvents(1, Claiming([0], 1, 0));
    assert IsOldest(s.slots, 1, 0);
    assert s.slots[1 := Live(Claimed(NewEvent()))] == TwoEvents(2, Idle).slots && s.claims[1 := 1] == TwoEvents(2, Idle).claims;
    assert [0] + [1] == [0, 1];
  }

  /** The flush is abandoned with the first event claimed, or with both claimed and the first one's release thrown. */
  function AbandonRun(f: Failure): seq<Step> {
    match f
    case LaterClaimFails => [StartFlush(2, 0), ClaimOne(0), ClaimFails]
    case ClaimReplyLost => [StartFlush(2, 0), ClaimLost(0)]
    case ReleaseNotApplied => [StartFlush(2, 0), ClaimOne(0), ClaimOne(1), EndClaims, Send(NotSent), Release(NotApplied, 0)]
    case ReleaseReplyLost => [StartFlush(2, 0), ClaimOne(0), ClaimOne(1), EndClaims, Send(NotSent), Release(AppliedButThrew, 0)]
  }

  function AbandonStates(f: Failure): seq<Sys> {
    var s0, s1 := TwoEvents(0, Idle), TwoEvents(0, Claiming(NoIds(), 2, 0));
    var s2, s3 := TwoEvents(1, Claiming([0], 1, 0)), TwoEvents(2, Claiming([0, 1], 0, 0));
    var s4, s5, s6 := TwoEvents(2, Sending([0, 1])), TwoEvents(2, Caught([0, 1])), TwoEvents(2, Idle);
    match f
    case LaterClaimFails => [s0, s1, s2, TwoEvents(1, Idle)]
    case ClaimReplyLost => [s0, s1, TwoEvents(1, Idle)]
    case ReleaseNotApplied => [s0, s1, s2, s3, s4, s5, s6]
    case ReleaseReplyLost => [s0, s1, s2, s3, s4, s5, Put(s6, 0, Released(Claimed(NewEvent()), 0, 8))]
  }

  lemma AbandonClaims(f: Failure, i: nat)
    requires i < |AbandonRun(f)| && (f == LaterClaimFails || f == ClaimReplyLost)
    ensures Next(AbandonStates(f)[i], AbandonRun(f)[i]) == AbandonStates(f)[i + 1]
    ensures Admitted(AbandonStates(f)[i], AbandonRun(f)[i], {f})
  {
    ClaimFirst(ClaimOne(0));
    ClaimFirst(ClaimLost(0));
    ClaimSecond();
  }

  lemma AbandonBegins(f: Failure, i: nat)
    requires i < |AbandonRun(f)| && i < 3 && (f == ReleaseNotApplied || f == ReleaseReplyLost)
    ensures Next(AbandonStates(f)[i], AbandonRun(f)[i]) == AbandonStates(f)[i + 1]
    ensures Admitted(AbandonStates(f)[i], AbandonRun(f)[i], {f})
  {
    ClaimFirst(ClaimOne(0));
    ClaimFirst(ClaimLost(0));
    ClaimSecond();
  }

  lemma AbandonEnds(f: Failure, i: nat)
    requires i < |AbandonRun(f)| && i >= 3 && (f == ReleaseNotApplied || f == ReleaseReplyLost)
    ensures Next(AbandonStates(f)[i], AbandonRun(f)[i]) == AbandonStates(f)[i + 1]
    ensures Admitted(AbandonStates(f)[i], AbandonRun(f)[i], {f})
  {
  }

  lemma AbandonStep(f: Failure, i: nat)
    requires i < |AbandonRun(f)|
    ensures Next(AbandonStates(f)[i], AbandonRun(f)[i]) == AbandonStates(f)[i + 1]
    ensures Admitted(AbandonStates(f)[i], AbandonRun(f)[i], {f})
  {
    if f == LaterClaimFails || f == ClaimReplyLost { AbandonClaims(f, i); }
    else if i < 3 { AbandonBegins(f, i); }
    else { AbandonEnds(f, i); }
  }

  lemma {:induction false} AdmittedAlong(states: seq<Sys>, run: seq<Step>, failures: set<Failure>)
    requires |states| == |run| + 1
    requires forall i :: 0 <= i < |run| ==> Next(states[i], run[i]) == states[i + 1]
    requires forall i :: 0 <= i < |run| ==> Admitted(states[i], run[i], failures)
    ensures RunAdmitted(states[0], run, failures)
    decreases |run|
  {
    if run != [] {
      AdmittedAlong(states[1..], run[1..], failures);
    }
  }

  /** Each of the failures leaves an event that nothing but a restart will ever touch again. */
  lemma AbandonStrands(f: Failure, failures: set<Failure>) returns (run: seq<Step>)
    requires f in failures
    ensures Init(TwoEvents(0, Idle)) && RunAdmitted(TwoEvents(0, Idle), run, failures)
    ensures var s := Exec(TwoEvents(0, Idle), run);
            s.relay == Idle && Stranded(s, if f == ReleaseReplyLost then 1 else 0)
  {
    run := AbandonRun(f);
    forall i | 0 <= i < |run|
      ensures Next(AbandonStates(f)[i], run[i]) == AbandonStates(f)[i + 1] && Admitted(AbandonStates(f)[i], run[i], failures)
    {
      AbandonStep(f, i);
    }
    ExecAlong(AbandonStates(f), run);
    AdmittedAlong(AbandonStates(f), run, failures);
  }

  /**
   No event is ever left processing behind an idle relay, in every run, crashes
   and restarts included, if and only if no claim fails after the first of its
   batch, no applied claim and no applied release loses its reply, and no
   release fails.
   */
  lemma NoneStrandedIff(failures: set<Failure>)
    ensures (forall s0: Sys, run: seq<Step> :: Init(s0) && RunAdmitted(s0, run, failures) ==> NoneStranded(Exec(s0, run)))
            <==> failures == {}
  {
    if failures == {} {
      forall s0: Sys, run: seq<Step> | Init(s0) && RunAdmitted(s0, run, failures) ensures NoneStranded(Exec(s0, run)) {
        InitInv(s0);
        AttendedRun(s0, run);
        var s := Exec(s0, run);
        forall slot <- s.slots | s.relay == Idle ensures !IsProcessing(slot) {
          var i: nat :| i < |s.slots| && s.slots[i] == slot;
        }
      }
    } else {
      var f :| f in failures;
      var run := AbandonStrands(f, failures);
      var s := Exec(TwoEvents(0, Idle), run);
      assert s.slots[if f == ReleaseReplyLost then 1 else 0] in s.slots;
      assert !NoneStranded(s);
    }
  }

  // ---------------------------------------------------------------- termination

  function Total(counts: seq<nat>): nat {
    if counts == [] then 0 else Total(counts[..|counts| - 1]) + counts[|counts| - 1]
  }

  lemma {:induction false} TotalBound(counts: seq<nat>, most: nat)
    requires forall i :: 0 <= i < |counts| ==> counts[i] <= most
    ensures Total(counts) <= |counts| * most
  {
    if counts != [] {
      TotalBound(counts[..|counts| - 1], most);
      assert (|counts| - 1) * most + most == |counts| * most;
    }
  }

  lemma {:induction false} TotalBump(counts: seq<nat>, i: nat)
    requires i < |counts|
    ensures Total(counts[i := counts[i] + 1]) == Total(counts) + 1
  {
    var n, after := |counts| - 1, counts[i := counts[i] + 1];
    if i < n {
      TotalBump(counts[..n], i);
      assert after[..n] == counts[..n][i := counts[i] + 1];
    } else {
      assert after[..n] == counts[..n];
    }
  }

  /** All claims of a run together: at most one allowance, plus one per restart, for each event. */
  lemma ClaimsBounded(s: Sys)
    requires Inv(s)
    ensures Total(s.claims) <= |s.slots| * (Cap(s.maxAttempts) + s.restarts)
  {
    forall i | 0 <= i < |s.claims| ensures s.claims[i] <= Cap(s.maxAttempts) + s.restarts {
      assert SlotOk(s, i);
    }
    TotalBound(s.claims, Cap(s.maxAttempts) + s.restarts);
  }

  /** The claims the events have left before the next restart. */
  function ClaimsLeft(s: Sys): int {
    |s.slots| * (Cap(s.maxAttempts) + s.restarts) - Total(s.claims)
  }

  predicate Claims(s: Sys, st: Step) {
    (st.ClaimOne? || st.ClaimLost?) && Next(s, st) != s
  }

  /** How many claims the run makes. */
  function ClaimsMade(s: Sys, run: seq<Step>): nat
    decreases |run|
  {
    if run == [] then 0 else (if Claims(s, run[0]) then 1 else 0) + ClaimsMade(Next(s, run[0]), run[1..])
  }

  lemma ClaimsLeftStep(s: Sys, st: Step)
    requires Inv(s) && !st.Append? && !st.Restart?
    ensures ClaimsLeft(Next(s, st)) == ClaimsLeft(s) - if Claims(s, st) then 1 else 0
  {
    if Claims(s, st) { TotalBump(s.claims, st.id); }
  }

  lemma AllClaimed(counts: seq<nat>, most: nat, i: nat)
    requires (forall k :: 0 <= k < |counts| ==> counts[k] <= most) && Total(counts) == |counts| * most && i < |counts|
    ensures counts[i] == most
  {
    if counts[i] < most {
      TotalBump(counts, i);
      TotalBound(counts[i := counts[i] + 1], most);
    }
  }

  lemma NothingPending(s: Sys)
    requires Inv(s) && ClaimsLeft(s) == 0
    ensures forall slot <- s.slots :: slot.Live? ==> slot.e.status != Pending
  {
    forall slot <- s.slots | slot.Live? ensures slot.e.status != Pending {
      var i: nat :| i < |s.slots| && s.slots[i] == slot;
      assert SlotOk(s, i);
      forall k | 0 <= k < |s.claims| ensures s.claims[k] <= Cap(s.maxAttempts) + s.restarts { assert SlotOk(s, k); }
      AllClaimed(s.claims, Cap(s.maxAttempts) + s.restarts, i);
    }
  }

  /**
   Whenever polls are made and whatever fails, a run with no restart makes no
   more claims than are left, and once it has made that many nothing is pending.
   */
  lemma {:induction false} ClaimsRunOut(s: Sys, run: seq<Step>)
    requires Inv(s) && forall st <- run :: !st.Append? && !st.Restart?
    ensures ClaimsMade(s, run) <= ClaimsLeft(s)
    ensures ClaimsMade(s, run) == ClaimsLeft(s) ==>
              forall slot <- Exec(s, run).slots :: slot.Live? ==> slot.e.status != Pending
    decreases |run|
  {
    if run != [] {
      ClaimsLeftStep(s, run[0]);
      StepKeeps(s, run[0]);
      ClaimsRunOut(Next(s, run[0]), run[1..]);
    } else {
      ClaimsBounded(s);
      if ClaimsLeft(s) == 0 { NothingPending(s); }
    }
  }
}
