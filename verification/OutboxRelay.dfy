/** The outbox service and its relay as they run, against the step model of `OutboxEvents`. */
module OutboxRelay {
  import opened Common
  import opened OutboxEvents

  /** How publishing one claimed event goes. */
  datatype Fault = Fault(send: SendResult, mark: WriteResult, release: WriteResult)

  /** Per event and attempt number. */
  type Faults = (nat, nat) -> Fault

  /** The claim with this number throws, applied or not. */
  datatype ClaimFault = ClaimFault(at: nat, applied: bool)

  /** No claim fails, or the very first does and nothing was claimed. */
  predicate Harmless(fault: Option<ClaimFault>) {
    fault.None? || fault.value == ClaimFault(0, false)
  }

  /** One poll: when it is made, for how many events, and how it goes. */
  datatype Poll = Poll(limit: nat, now: int, claimFault: Option<ClaimFault>, faults: Faults)

  ghost predicate AlwaysReleases(faults: Faults) {
    forall id, attempt :: faults(id, attempt).release == Applied
  }

  predicate NoneProcessing(slots: seq<Slot>) {
    forall i :: 0 <= i < |slots| && slots[i].Live? ==> slots[i].e.status != Processing
  }

  predicate AllFinished(slots: seq<Slot>) {
    forall i :: 0 <= i < |slots| && slots[i].Live? ==> Terminal(slots[i].e.status)
  }

  /** The batch so far: distinct events, oldest first, none left out that is older; nothing else changed. */
  ghost predicate BatchSoFar(before: seq<Slot>, after: seq<Slot>, batch: seq<nat>, now: int) {
    && |after| == |before| && Distinct(batch)
    && (forall i :: 0 <= i < |batch| ==> Available(before, batch[i], now))
    && (forall k: nat :: k < |before| ==> after[k] == if k in batch then Live(Claimed(before[k].e)) else before[k])
    && (forall i, j :: 0 <= i < j < |batch| ==> before[batch[i]].e.createdAt <= before[batch[j]].e.createdAt)
    && (forall k: nat, j :: k !in batch && Available(before, k, now) && 0 <= j < |batch| ==>
          before[batch[j]].e.createdAt <= before[k].e.createdAt)
  }

  lemma ExtendBatch(before: seq<Slot>, mid: seq<Slot>, batch: seq<nat>, now: int, id: nat)
    requires BatchSoFar(before, mid, batch, now) && IsOldest(mid, id, now)
    ensures BatchSoFar(before, mid[id := Live(Claimed(mid[id].e))], batch + [id], now)
  {
    var more := batch + [id];
    assert id !in batch;
    assert forall k: nat :: Available(before, k, now) && k !in batch ==> Available(mid, k, now);
    assert forall i :: 0 <= i < |batch| ==> more[i] == batch[i];
  }

  /** Everything in the queue from `i` on is still processing; nothing else is. */
  predicate OnlyQueued(slots: seq<Slot>, queue: seq<nat>) {
    forall k :: 0 <= k < |slots| && slots[k].Live? && slots[k].e.status == Processing ==> k in queue
  }

  /** Handling one event; a step whose turn does not come changes nothing. */
  function Handling(fault: Fault, now: int): seq<Step> {
    [Send(fault.send), Mark(fault.mark, now), Release(fault.release, now)]
  }

  lemma ThreeSteps(s: Sys, a: Step, b: Step, c: Step)
    ensures Exec(s, [a, b, c]) == Next(Next(Next(s, a), b), c)
  {
    var none: seq<Step> := [];
    assert [a, b, c][1..] == [b, c] && [b, c][1..] == [c] && [c][1..] == none;
    assert Exec(s, [a, b, c]) == Exec(Next(s, a), [b, c]);
    assert Exec(Next(s, a), [b, c]) == Exec(Next(Next(s, a), b), [c]);
    assert Exec(Next(Next(s, a), b), [c]) == Exec(Next(Next(Next(s, a), b), c), none);
  }

  /** Some event is available to the poll, and its first claim works. */
  predicate IsDue(poll: Poll, slots: seq<Slot>) {
    poll.limit > 0 && !NoneAvailable(slots, poll.now) && poll.claimFault != Some(ClaimFault(0, false))
  }

  /** How many of the polls found an event due. */
  function CountDue(polls: seq<Poll>, seen: seq<seq<Slot>>): nat
    requires |polls| == |seen|
  {
    if polls == [] then 0
    else
      var n := |polls| - 1;
      CountDue(polls[..n], seen[..n]) + if IsDue(polls[n], seen[n]) then 1 else 0
  }

  /** Pending, and its time has come. */
  predicate IsDuePending(slot: Slot, now: int) {
    slot.Live? && slot.e.status == Pending && slot.e.availableAt <= now
  }

  class Outbox {
    const maxAttempts: int
    var slots: seq<Slot>
    var isRunning: bool
    ghost var claims: seq<nat>
    ghost var sends: seq<nat>
    ghost var restarts: nat

    ghost function At(relay: Relay): Sys
      reads this
    {
      Sys(slots, claims, sends, relay, restarts, maxAttempts)
    }

    constructor (maxAttempts: int)
      ensures this.maxAttempts == maxAttempts && !isRunning && Init(At(Idle)) && Inv(At(Idle))
    {
      this.maxAttempts := maxAttempts;
      slots, isRunning := [], false;
      claims, sends, restarts := [], [], 0;
    }

    method AppendOutboxEvent(createdAt: int, availableAt: int)
      requires Inv(At(Idle))
      modifies this
      ensures Inv(At(Idle)) && At(Idle) == Next(old(At(Idle)), Append(createdAt, availableAt))
      ensures slots == old(slots) + [Live(Event(Pending, 0, createdAt, availableAt, None))]
      ensures isRunning == old(isRunning)
    {
      AppendKeeps(At(Idle), createdAt, availableAt);
      slots := slots + [Live(Event(Pending, 0, createdAt, availableAt, None))];
      claims, sends := claims + [0], sends + [0];
    }

    method FindOldest(now: int) returns (found: Option<nat>)
      ensures found.Some? ==> IsOldest(slots, found.value, now) && IsDuePending(slots[found.value], now)
      ensures found.Some? ==> forall slot <- slots :: IsDuePending(slot, now) ==> slots[found.value].e.createdAt <= slot.e.createdAt
      ensures found.None? ==> NoneAvailable(slots, now) && forall slot <- slots :: !IsDuePending(slot, now)
    {
      found := None;
      for k := 0 to |slots|
        invariant found.Some? ==>
                    Available(slots, found.value, now) && forall j :: 0 <= j < k && Available(slots, j, now) ==>
                      slots[found.value].e.createdAt <= slots[j].e.createdAt
        invariant found.None? ==> forall j :: 0 <= j < k ==> !Available(slots, j, now)
      {
        if Available(slots, k, now) && (found.None? || slots[k].e.createdAt < slots[found.value].e.createdAt) {
          found := Some(k);
        }
      }
      forall slot <- slots | IsDuePending(slot, now) ensures exists k: nat :: k < |slots| && slots[k] == slot && Available(slots, k, now) {
        var k: nat :| k < |slots| && slots[k] == slot;
        assert Available(slots, k, now);
      }
    }

    /** One `findOneAndUpdate`: the oldest available event, if there is one, becomes processing. */
    method ClaimNext(ghost batch: seq<nat>, ghost left: nat, now: int) returns (claimed: Option<nat>)
      requires left > 0 && Inv(At(Claiming(batch, left, now)))
      modifies this
      ensures restarts == old(restarts) && isRunning == old(isRunning) && sends == old(sends)
      ensures claimed.None? ==> NoneAvailable(slots, now) && slots == old(slots) && claims == old(claims)
      ensures claimed.Some? ==>
                && IsOldest(old(slots), claimed.value, now)
                && slots == old(slots)[claimed.value := Live(Claimed(old(slots)[claimed.value].e))]
                && |claims| == |old(claims)| && Total(claims) == Total(old(claims)) + 1
                && Inv(At(Claiming(batch + [claimed.value], left - 1, now)))
    {
      claimed := FindOldest(now);
      if claimed.Some? {
        var id := claimed.value;
        ghost var s := At(Claiming(batch, left, now));
        assert SlotOk(s, id) && Next(s, ClaimOne(id)).claims[id] == s.claims[id] + 1;
        ClaimKeeps(s, id);
        TotalBump(claims, id);
        slots := slots[id := Live(Claimed(slots[id].e))];
        claims := claims[id := claims[id] + 1];
      }
    }

    /** Claim number `index`; when it throws, the flush is abandoned, applied or not. */
    method TryClaim(ghost batch: seq<nat>, ghost left: nat, now: int, index: nat, fault: Option<ClaimFault>)
      returns (claimed: Option<nat>, threw: bool)
      requires left > 0 && Inv(At(Claiming(batch, left, now)))
      modifies this
      ensures restarts == old(restarts) && isRunning == old(isRunning) && sends == old(sends)
      ensures threw <==> fault == Some(ClaimFault(index, true)) || fault == Some(ClaimFault(index, false))
      ensures claimed.None? ==> slots == old(slots) && claims == old(claims)
      ensures claimed.None? ==> NoneAvailable(slots, now) || fault == Some(ClaimFault(index, false))
      ensures claimed.Some? ==>
                && IsOldest(old(slots), claimed.value, now) && fault != Some(ClaimFault(index, false))
                && slots == old(slots)[claimed.value := Live(Claimed(old(slots)[claimed.value].e))]
                && |claims| == |old(claims)| && Total(claims) == Total(old(claims)) + 1
      ensures Inv(At(if threw then Idle else if claimed.Some? then Claiming(batch + [claimed.value], left - 1, now) else Claiming(batch, left, now)))
    {
      claimed, threw := None, fault == Some(ClaimFault(index, true)) || fault == Some(ClaimFault(index, false));
      if fault != Some(ClaimFault(index, false)) {
        claimed := ClaimNext(batch, left, now);
      }
      if threw {
        FlushStepKeeps(At(if claimed.Some? then Claiming(batch + [claimed.value], left - 1, now) else Claiming(batch, left, now)), ClaimFails);
      }
    }

    /** When a claim throws, what was claimed stays processing: `batch` is then what the caller never gets to see. */
    method ClaimOutboxBatch(limit: nat, now: int, fault: Option<ClaimFault>) returns (batch: seq<nat>, threw: bool)
      requires Inv(At(Idle))
      modifies this
      ensures restarts == old(restarts) && isRunning == old(isRunning) && sends == old(sends)
      ensures BatchSoFar(old(slots), slots, batch, now) && |batch| <= limit
      ensures !threw ==> |batch| == limit || NoneAvailable(slots, now)
      ensures threw ==> fault.Some? && fault.value.at <= |batch| <= fault.value.at + if fault.value.applied then 1 else 0
      ensures threw && batch == [] ==> fault == Some(ClaimFault(0, false)) || NoneAvailable(slots, now)
      ensures Inv(At(if threw then Idle else Claiming(batch, limit - |batch|, now)))
      ensures |claims| == |old(claims)| && Total(claims) == Total(old(claims)) + |batch|
    {
      batch, threw := [], false;
      FlushStepKeeps(At(Idle), StartFlush(limit, now));
      for index := 0 to limit
        invariant |batch| == index && restarts == old(restarts) && isRunning == old(isRunning) && sends == old(sends)
        invariant Inv(At(Claiming(batch, limit - index, now))) && !threw
        invariant |claims| == |old(claims)| && Total(claims) == Total(old(claims)) + index
        invariant BatchSoFar(old(slots), slots, batch, now)
      {
        ghost var mid := slots;
        var event;
        event, threw := TryClaim(batch, limit - index, now, index, fault);
        if event.None? {
          return;
        }
        ExtendBatch(old(slots), mid, batch, now, event.value);
        batch := batch + [event.value];
        if threw {
          return;
        }
      }
    }

    method MarkOutboxEventPublished(id: nat, now: int)
      requires id < |slots|
      modifies this`slots
      ensures slots == if old(slots)[id].Live? then old(slots)[id := Live(MarkedPublished(old(slots)[id].e, now))] else old(slots)
      ensures old(slots)[id].Live? ==>
                var e := old(slots)[id].e;
                slots[id] == Live(Event(Published, e.attempts, e.createdAt, e.availableAt, Some(now + 604800000)))
    {
      if slots[id].Live? {
        slots := slots[id := Live(slots[id].e.(status := Published, expiresAt := Some(now + OUTBOX_RETENTION_MS)))];
      }
    }

    method ReleaseOutboxEvent(id: nat, now: int)
      requires id < |slots|
      modifies this`slots
      ensures slots == if old(slots)[id].Live? then old(slots)[id := Live(Released(old(slots)[id].e, now, maxAttempts))] else old(slots)
      ensures old(slots)[id].Live? ==>
                var e := old(slots)[id].e;
                slots[id] == if e.attempts >= maxAttempts
                             then Live(Event(Failed, e.attempts, e.createdAt, e.availableAt, Some(now + 604800000)))
                             else Live(Event(Pending, e.attempts, e.createdAt, now + RetryDelayMs(e.attempts), e.expiresAt))
    {
      if slots[id].Pruned? {
        return;
      }
      var event := slots[id].e;
      var exhausted := event.attempts >= maxAttempts;
      var retryDelayMs := RetryDelayMs(event.attempts);
      var update := event.(status := if exhausted then Failed else Pending,
                           availableAt := if exhausted then event.availableAt else now + retryDelayMs);
      if exhausted {
        update := update.(expiresAt := Some(now + OUTBOX_RETENTION_MS));
      }
      slots := slots[id := Live(update)];
    }

    method RequeueProcessingOutboxEvents(now: int)
      requires Inv(At(Down))
      modifies this
      ensures At(Idle) == Next(old(At(Down)), Restart(now)) && Inv(At(Idle)) && NoneProcessing(slots)
      ensures |slots| == |old(slots)| && forall k :: 0 <= k < |slots| ==>
                slots[k] == if IsProcessing(old(slots)[k]) then Live(old(slots)[k].e.(status := Pending, availableAt := now)) else old(slots)[k]
      ensures isRunning == old(isRunning)
    {
      RestartKeeps(At(Down), now);
      ghost var was := slots;
      for i := 0 to |slots|
        invariant |slots| == |was| && claims == old(claims) && sends == old(sends) && restarts == old(restarts)
        invariant isRunning == old(isRunning)
        invariant forall k :: 0 <= k < |was| ==> slots[k] == if k < i then Requeued(was, now)[k] else was[k]
      {
        if slots[i].Live? && slots[i].e.status == Processing {
          slots := slots[i := Live(slots[i].e.(status := Pending, availableAt := now))];
        }
      }
      assert slots == Requeued(was, now);
      restarts := restarts + 1;
    }

    /** Kafka gets the event, or not, and says so, or not. */
    method TrySend(ghost queue: seq<nat>, id: nat, send: SendResult) returns (sent: bool)
      requires queue != [] && queue[0] == id && Inv(At(Sending(queue)))
      modifies this`sends
      ensures sent <==> send == Delivered
      ensures Inv(At(if sent then Sent(queue) else Caught(queue)))
      ensures At(if sent then Sent(queue) else Caught(queue)) == Next(old(At(Sending(queue))), Send(send))
    {
      assert Fresh(At(Sending(queue)), queue[0]);
      SendKeeps(At(Sending(queue)), send);
      if send != NotSent {
        sends := sends[id := sends[id] + 1];
      }
      sent := send == Delivered;
    }

    method TryMark(ghost queue: seq<nat>, id: nat, mark: WriteResult, now: int) returns (marked: bool)
      requires queue != [] && queue[0] == id && Inv(At(Sent(queue)))
      modifies this`slots
      ensures marked <==> mark == Applied
      ensures Inv(At(if marked then After(queue) else Caught(queue)))
      ensures At(if marked then After(queue) else Caught(queue)) == Next(old(At(Sent(queue))), Mark(mark, now))
    {
      MarkKeeps(At(Sent(queue)), mark, now);
      if mark != NotApplied {
        MarkOutboxEventPublished(id, now);
      }
      marked := mark == Applied;
    }

    method TryRelease(ghost queue: seq<nat>, id: nat, release: WriteResult, now: int) returns (released: bool)
      requires queue != [] && queue[0] == id && Inv(At(Caught(queue)))
      modifies this`slots
      ensures released <==> release == Applied
      ensures Inv(At(if released then After(queue) else Idle))
      ensures At(if released then After(queue) else Idle) == Next(old(At(Caught(queue))), Release(release, now))
    {
      ReleaseKeeps(At(Caught(queue)), release, now);
      if release != NotApplied {
        ReleaseOutboxEvent(id, now);
      }
      released := release == Applied;
    }

    /** Publish one claimed event; `stop` when its release throws and the flush is abandoned. */
    method PublishOne(ghost queue: seq<nat>, id: nat, now: int, fault: Fault) returns (stop: bool)
      requires queue != [] && queue[0] == id && Inv(At(Sending(queue)))
      modifies this`slots, this`sends
      ensures |slots| == |old(slots)| && forall k :: 0 <= k < |slots| && k != id ==> slots[k] == old(slots)[k]
      ensures Inv(At(if stop then Idle else After(queue)))
      ensures stop ==> fault.release != Applied
      ensures !stop ==> slots[id].Live? ==> slots[id].e.status != Processing
      ensures At(if stop then Idle else After(queue)) == Exec(old(At(Sending(queue))), Handling(fault, now))
    {
      ThreeSteps(At(Sending(queue)), Send(fault.send), Mark(fault.mark, now), Release(fault.release, now));
      var sent := TrySend(queue, id, fault.send);
      if sent {
        var marked := TryMark(queue, id, fault.mark, now);
        if marked {
          return false;
        }
      }
      var released := TryRelease(queue, id, fault.release, now);
      return !released;
    }

    /** Publish the claimed events in order, giving up when a release throws. */
    method PublishAll(events: seq<nat>, now: int, faults: Faults)
      requires events != [] && Inv(At(Sending(events)))
      modifies this
      ensures Inv(At(Idle)) && restarts == old(restarts) && isRunning == old(isRunning) && claims == old(claims)
      ensures |slots| == |old(slots)|
      ensures OnlyQueued(old(slots), events) && AlwaysReleases(faults) ==> NoneProcessing(slots)
    {
      var queue := events;
      while queue != []
        invariant restarts == old(restarts) && isRunning == old(isRunning) && claims == old(claims)
        invariant |slots| == |old(slots)| && (OnlyQueued(old(slots), events) ==> OnlyQueued(slots, queue))
        invariant Inv(At(if queue == [] then Idle else Sending(queue)))
        decreases |queue|
      {
        var id := queue[0];
        assert Fresh(At(Sending(queue)), queue[0]);
        var stop := PublishOne(queue, id, now, faults(id, if slots[id].Live? then slots[id].e.attempts else 0));
        if stop {
          return;
        }
        queue := queue[1..];
      }
    }

    /** One poll of the relay. */
    method FlushOutboxBatch(poll: Poll) returns (claimed: nat)
      requires Inv(At(Idle))
      modifies this
      ensures Inv(At(Idle)) && restarts == old(restarts) && isRunning == old(isRunning)
      ensures |slots| == |old(slots)| && Total(claims) == Total(old(claims)) + claimed
      ensures !old(isRunning) && IsDue(poll, old(slots)) ==> claimed > 0
      ensures NoneProcessing(old(slots)) && AlwaysReleases(poll.faults) && Harmless(poll.claimFault) ==> NoneProcessing(slots)
    {
      if isRunning {
        return 0;
      }
      isRunning := true;
      var events, threw := ClaimOutboxBatch(poll.limit, poll.now, poll.claimFault);
      claimed := |events|;
      if events == [] { assert slots == old(slots); }
      if threw {
        isRunning := false;
        return;
      }
      FlushStepKeeps(At(Claiming(events, poll.limit - |events|, poll.now)), EndClaims);
      assert NoneProcessing(old(slots)) ==> OnlyQueued(slots, events);
      if events != [] {
        PublishAll(events, poll.now, poll.faults);
      }
      isRunning := false;
    }

    /**
     Polls made at any times, failing in any way. `seen` is what each found. No
     more of them can find an event due than there are claims left; and once
     that many have, nothing is pending.
     */
    method PollAll(polls: seq<Poll>) returns (claimed: nat, ghost seen: seq<seq<Slot>>)
      requires Inv(At(Idle)) && !isRunning
      modifies this
      ensures Inv(At(Idle)) && !isRunning && restarts == old(restarts) && |slots| == |old(slots)|
      ensures |seen| == |polls| && (polls != [] ==> seen[0] == old(slots))
      ensures Total(claims) == Total(old(claims)) + claimed
      ensures CountDue(polls, seen) <= claimed <= ClaimsLeft(old(At(Idle)))
      ensures CountDue(polls, seen) == ClaimsLeft(old(At(Idle))) ==> forall slot <- slots :: slot.Live? ==> slot.e.status != Pending
      ensures NoneProcessing(old(slots)) && (forall p <- polls :: AlwaysReleases(p.faults) && Harmless(p.claimFault)) ==> NoneProcessing(slots)
    {
      claimed, seen := 0, [];
      for i := 0 to |polls|
        invariant Inv(At(Idle)) && !isRunning && restarts == old(restarts) && |slots| == |old(slots)|
        invariant |seen| == i && (seen == [] ==> slots == old(slots)) && (seen != [] ==> seen[0] == old(slots))
        invariant Total(claims) == Total(old(claims)) + claimed
        invariant CountDue(polls[..i], seen) <= claimed
        invariant NoneProcessing(old(slots)) && (forall p <- polls[..i] :: AlwaysReleases(p.faults) && Harmless(p.claimFault)) ==> NoneProcessing(slots)
      {
        ghost var before := slots;
        var n := FlushOutboxBatch(polls[i]);
        claimed := claimed + n;
        assert polls[..i + 1][..i] == polls[..i] && (seen + [before])[..i] == seen && polls[i] in polls[..i + 1];
        seen := seen + [before];
      }
      assert polls[..|polls|] == polls;
      ClaimsBounded(At(Idle));
      if ClaimsLeft(At(Idle)) == 0 { NothingPending(At(Idle)); }
    }

    /**
     Liveness. From now on with no restart, nothing appended and every claim and
     release succeeding, polling at later and later times whenever some event
     comes due finishes every event, for every pattern of send and mark
     failures, within the claims the events have left.
     */
    method RunUntilFinished(limit: nat, start: int, faults: Faults) returns (claimed: nat)
      requires Inv(At(Idle)) && NoneProcessing(slots) && !isRunning && limit > 0
      requires AlwaysReleases(faults)
      modifies this
      ensures AllFinished(slots) && Inv(At(Idle)) && |slots| == |old(slots)| && restarts == old(restarts)
      ensures Total(claims) == Total(old(claims)) + claimed && claimed <= ClaimsLeft(old(At(Idle)))
    {
      claimed := 0;
      var now := start;
      ClaimsBounded(At(Idle));
      var due := SomePending();
      while due.Some?
        invariant Inv(At(Idle)) && NoneProcessing(slots) && !isRunning && restarts == old(restarts) && |slots| == |old(slots)|
        invariant Total(claims) == Total(old(claims)) + claimed
        invariant due.Some? ==> 0 <= due.value < |slots| && slots[due.value].Live? && slots[due.value].e.status == Pending
        invariant due.None? ==> AllFinished(slots)
        invariant ClaimsLeft(At(Idle)) >= 0
        decreases ClaimsLeft(At(Idle))
      {
        now := Max(now, slots[due.value].e.availableAt);
        assert Available(slots, due.value, now);
        var n := FlushOutboxBatch(Poll(limit, now, None, faults));
        claimed := claimed + n;
        ClaimsBounded(At(Idle));
        due := SomePending();
      }
    }

    /** Whatever state a crash or an abandoned flush left behind, starting the relay again finishes every event. */
    method StartOutboxRelay(limit: nat, now: int, faults: Faults) returns (claimed: nat)
      requires Inv(At(Down)) && !isRunning && limit > 0 && AlwaysReleases(faults)
      modifies this
      ensures AllFinished(slots) && Inv(At(Idle)) && |slots| == |old(slots)| && restarts == old(restarts) + 1
      ensures Total(claims) == Total(old(claims)) + claimed
      ensures Total(claims) <= |slots| * (Cap(maxAttempts) + restarts)
    {
      RequeueProcessingOutboxEvents(now);
      claimed := RunUntilFinished(limit, now, faults);
      ClaimsBounded(At(Idle));
    }

    method SomePending() returns (due: Option<nat>)
      requires NoneProcessing(slots)
      ensures due.Some? ==> 0 <= due.value < |slots| && slots[due.value].Live? && slots[due.value].e.status == Pending
      ensures due.None? ==> AllFinished(slots)
    {
      for k := 0 to |slots|
        invariant forall j :: 0 <= j < k && slots[j].Live? ==> Terminal(slots[j].e.status)
      {
        if slots[k].Live? && slots[k].e.status == Pending {
          return Some(k);
        }
      }
      return None;
    }
  }
}
