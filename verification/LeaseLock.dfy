/**
 The token lease lock and the one operation it guards, `carrierAccept`. Callers
 interleave at every read and write, time passes between any two steps, and
 other services change the match status without taking the lock.
 */
module LeaseLock {
  import opened Common
  import opened MatchStates

  const LOCK_TTL_SECONDS := 10

  datatype Entry = Entry(token: nat, expiry: int)

  // ---------------------------------------------------------------- the key in Redis

  predicate IsFree(entry: Option<Entry>, now: int) {
    entry.None? || entry.value.expiry <= now
  }

  /** Compare and delete, atomically. */
  function AfterRelease(entry: Option<Entry>, now: int, token: nat): Option<Entry> {
    if !IsFree(entry, now) && entry.value.token == token then None else entry
  }

  datatype AcceptResult = Accepted | Busy | NotFound | Forbidden | AlreadyProcessed

  /** One caller at a time: the lock as a store of keys, and `carrierAccept` under it. */
  class AcceptService {
    var entries: map<string, Entry>
    var now: int
    var issued: nat
    var statuses: map<string, Status>
    const carriers: map<string, string>

    constructor (statuses: map<string, Status>, carriers: map<string, string>)
      ensures entries == map[] && now == 0 && issued == 0 && this.statuses == statuses && this.carriers == carriers
    {
      entries, now, issued := map[], 0, 0;
      this.statuses, this.carriers := statuses, carriers;
    }

    function EntryAt(key: string): Option<Entry>
      reads this
    {
      if key in entries then Some(entries[key]) else None
    }

    /** SET key token NX EX ttl, with a token never used before. */
    method AcquireLock(key: string, ttlSeconds: int) returns (token: Option<nat>)
      modifies this`entries, this`issued
      ensures issued == old(issued) + 1
      ensures token == if old(IsFree(EntryAt(key), now)) then Some(old(issued)) else None
      ensures token.Some? <==> key !in old(entries) || old(entries)[key].expiry <= now
      ensures entries == if token.Some? then old(entries)[key := Entry(token.value, now + ttlSeconds)] else old(entries)
    {
      var fresh' := issued;
      issued := issued + 1;
      if key in entries && now < entries[key].expiry {
        token := None;
        return;
      }
      entries := entries[key := Entry(fresh', now + ttlSeconds)];
      token := Some(fresh');
    }

    method ReleaseLock(key: string, token: nat)
      modifies this`entries
      ensures EntryAt(key) == AfterRelease(old(EntryAt(key)), now, token)
      ensures key !in entries <==> key !in old(entries) || (now < old(entries)[key].expiry && old(entries)[key].token == token)
      ensures entries == old(entries) || entries == old(entries) - {key}
      ensures forall k :: k != key ==> EntryAt(k) == old(EntryAt(k))
    {
      if key in entries && now < entries[key].expiry && entries[key].token == token {
        entries := entries - {key};
      }
    }

    /** `withLock` around the accept: the key is free again afterwards however the section ends. */
    method CarrierAccept(matchId: string, userId: string) returns (r: AcceptResult)
      modifies this
      ensures r == Busy <==> !old(IsFree(EntryAt(matchId), now))
      ensures r == Accepted <==>
              old(IsFree(EntryAt(matchId), now)) && matchId in old(statuses) && matchId in carriers
              && carriers[matchId] == userId && old(statuses)[matchId] == Proposed
      ensures r == NotFound <==> old(IsFree(EntryAt(matchId), now)) && (matchId !in old(statuses) || matchId !in carriers)
      ensures r == Forbidden <==>
              old(IsFree(EntryAt(matchId), now)) && matchId in old(statuses) && matchId in carriers && carriers[matchId] != userId
      ensures r == AlreadyProcessed <==>
              old(IsFree(EntryAt(matchId), now)) && matchId in old(statuses) && matchId in carriers
              && carriers[matchId] == userId && old(statuses)[matchId] != Proposed
      ensures statuses == if r == Accepted then old(statuses)[matchId := CarrierAccepted] else old(statuses)
      ensures now == old(now) && (r != Busy ==> IsFree(EntryAt(matchId), now))
      ensures forall k :: k != matchId ==> EntryAt(k) == old(EntryAt(k))
    {
      var token := AcquireLock(matchId, LOCK_TTL_SECONDS);
      if token.None? {
        return Busy;
      }
      if matchId !in statuses || matchId !in carriers {
        r := NotFound;
      } else if carriers[matchId] != userId {
        r := Forbidden;
      } else if statuses[matchId] != Proposed {
        r := AlreadyProcessed;
      } else {
        statuses := statuses[matchId := CarrierAccepted];
        r := Accepted;
      }
      ReleaseLock(matchId, token.value);
    }
  }

  // ---------------------------------------------------------------- interleaved callers

  /** A caller of `carrierAccept` on one match; `until` is when its lease runs out. */
  datatype Caller =
    | Waiting
    | Holding(token: nat, until: int)
    | Checked(token: nat, until: int, sawProposed: bool)
    | Leaving(token: nat, until: int)
    | Gone

  datatype Sys = Sys(now: int, entry: Option<Entry>, issued: nat, status: Status, callers: seq<Caller>, accepts: nat)

  datatype Step =
    | Tick(seconds: nat)
    | Arrive
    | Acquire(c: nat)
    | ReadStatus(c: nat)
    | WriteStatus(c: nat)
    | Release(c: nat)
    | Die(c: nat)
    | OtherStatus(status: Status) // another service; none ever restores `proposed`

  predicate InSection(c: Caller) {
    c.Holding? || c.Checked? || c.Leaving?
  }

  function SetCaller(s: Sys, c: nat, to: Caller): Sys
    requires c < |s.callers|
  {
    s.(callers := s.callers[c := to])
  }

  function Next(s: Sys, st: Step): Sys {
    match st
    case Tick(seconds) => s.(now := s.now + seconds)
    case Arrive => s.(callers := s.callers + [Waiting])
    case Acquire(c) =>
      if c < |s.callers| && s.callers[c] == Waiting then
        if IsFree(s.entry, s.now) then
          SetCaller(s, c, Holding(s.issued, s.now + LOCK_TTL_SECONDS))
            .(entry := Some(Entry(s.issued, s.now + LOCK_TTL_SECONDS)), issued := s.issued + 1)
        else SetCaller(s, c, Gone)
      else s
    case ReadStatus(c) =>
      if c < |s.callers| && s.callers[c].Holding? then
        SetCaller(s, c, Checked(s.callers[c].token, s.callers[c].until, s.status == Proposed))
      else s
    case WriteStatus(c) =>
      if c < |s.callers| && s.callers[c].Checked? then
        var left := SetCaller(s, c, Leaving(s.callers[c].token, s.callers[c].until));
        if s.callers[c].sawProposed then left.(status := CarrierAccepted, accepts := s.accepts + 1) else left
      else s
    case Release(c) =>
      if c < |s.callers| && s.callers[c].Leaving? then
        SetCaller(s, c, Gone).(entry := AfterRelease(s.entry, s.now, s.callers[c].token))
      else s
    case Die(c) =>
      if c < |s.callers| then SetCaller(s, c, Gone) else s
    case OtherStatus(status) =>
      if status != Proposed then s.(status := status) else s
  }

  function Exec(s: Sys, run: seq<Step>): Sys
    decreases |run|
  {
    if run == [] then s else Exec(Next(s, run[0]), run[1..])
  }

  predicate Init(s: Sys) {
    s.entry == None && s.callers == [] && s.accepts == 0
  }

  /** The caller is inside its section and its lease has not run out. */
  predicate Leased(s: Sys, c: nat) {
    c < |s.callers| && InSection(s.callers[c]) && s.now < s.callers[c].until
  }

  /** The section fits in the lease: the accepting write happens before it runs out. */
  predicate InTime(s: Sys, st: Step) {
    st.WriteStatus? && st.c < |s.callers| && s.callers[st.c].Checked? && s.callers[st.c].sawProposed ==> Leased(s, st.c)
  }

  predicate RunInTime(s: Sys, run: seq<Step>)
    decreases |run|
  {
    run == [] || (InTime(s, run[0]) && RunInTime(Next(s, run[0]), run[1..]))
  }

  ghost predicate LockOk(s: Sys) {
    && (s.entry.Some? ==> s.entry.value.token < s.issued)
    && (forall c :: 0 <= c < |s.callers| && InSection(s.callers[c]) ==> s.callers[c].token < s.issued)
    && (forall c :: 0 <= c < |s.callers| && Leased(s, c) ==> s.entry == Some(Entry(s.callers[c].token, s.callers[c].until)))
    && (forall c, d :: 0 <= c < d < |s.callers| && InSection(s.callers[c]) && InSection(s.callers[d]) ==>
          s.callers[c].token != s.callers[d].token)
  }

  ghost predicate AcceptOk(s: Sys) {
    && s.accepts <= 1
    && (s.accepts == 1 ==> s.status != Proposed)
    && (forall c :: 0 <= c < |s.callers| && Leased(s, c) && s.callers[c].Checked? && s.callers[c].sawProposed ==> s.accepts == 0)
  }

  lemma OtherKeeps(s: Sys, st: Step)
    requires LockOk(s) && !st.Acquire? && !st.Release?
    ensures LockOk(Next(s, st))
  {
  }

  lemma ReleaseKeeps(s: Sys, c: nat)
    requires LockOk(s)
    ensures LockOk(Next(s, Release(c)))
  {
  }

  /** The key goes to one caller at a time, and only when no lease on it is left. */
  lemma AcquireKeeps(s: Sys, c: nat)
    requires LockOk(s)
    ensures LockOk(Next(s, Acquire(c)))
  {
  }

  lemma LockStep(s: Sys, st: Step)
    requires LockOk(s)
    ensures LockOk(Next(s, st))
  {
    match st
    case Acquire(c) => AcquireKeeps(s, c);
    case Release(c) => ReleaseKeeps(s, c);
    case _ => OtherKeeps(s, st);
  }

  /** Two callers never both hold an unexpired lease on the key. */
  lemma MutualExclusion(s: Sys, c: nat, d: nat)
    requires LockOk(s) && Leased(s, c) && Leased(s, d)
    ensures c == d
  {
  }

  lemma AcceptStep(s: Sys, st: Step)
    requires LockOk(s) && AcceptOk(s) && InTime(s, st)
    ensures AcceptOk(Next(s, st))
  {
  }

  /**
   Over every interleaving from a free key, leases exclude each other; and when
   each accepting write is made within its lease, at most one accept succeeds.
   */
  lemma {:induction false} LeaseSafety(s: Sys, run: seq<Step>)
    requires LockOk(s)
    ensures LockOk(Exec(s, run))
    ensures AcceptOk(s) && RunInTime(s, run) ==> Exec(s, run).accepts <= 1
    decreases |run|
  {
    if run != [] {
      LockStep(s, run[0]);
      if AcceptOk(s) && RunInTime(s, run) { AcceptStep(s, run[0]); }
      LeaseSafety(Next(s, run[0]), run[1..]);
    }
  }

  lemma AtMostOneAccept(s0: Sys, run: seq<Step>, c: nat, d: nat)
    requires Init(s0)
    ensures RunInTime(s0, run) ==> Exec(s0, run).accepts <= 1
    ensures Leased(Exec(s0, run), c) && Leased(Exec(s0, run), d) ==> c == d
  {
    LeaseSafety(s0, run);
    if Leased(Exec(s0, run), c) && Leased(Exec(s0, run), d) {
      MutualExclusion(Exec(s0, run), c, d);
    }
  }

  /** A late releaser removes nothing once another caller holds the key. */
  lemma LateReleaseHarmless(s: Sys, c: nat, d: nat)
    requires LockOk(s) && Leased(s, d) && c != d && c < |s.callers|
    ensures Next(s, Release(c)).entry == s.entry && Leased(Next(s, Release(c)), d)
  {
  }

  function OverrunRun(): seq<Step> {
    [Arrive, Arrive, Acquire(0), ReadStatus(0), Tick(10), Acquire(1), ReadStatus(1), WriteStatus(0), WriteStatus(1)]
  }

  function OverrunStates(): seq<Sys> {
    var w, e0, e1 := Waiting, Some(Entry(0, 10)), Some(Entry(1, 20));
    [Sys(0, None, 0, Proposed, [], 0), Sys(0, None, 0, Proposed, [w], 0), Sys(0, None, 0, Proposed, [w, w], 0),
     Sys(0, e0, 1, Proposed, [Holding(0, 10), w], 0), Sys(0, e0, 1, Proposed, [Checked(0, 10, true), w], 0),
     Sys(10, e0, 1, Proposed, [Checked(0, 10, true), w], 0), Sys(10, e1, 2, Proposed, [Checked(0, 10, true), Holding(1, 20)], 0),
     Sys(10, e1, 2, Proposed, [Checked(0, 10, true), Checked(1, 20, true)], 0),
     Sys(10, e1, 2, CarrierAccepted, [Leaving(0, 10), Checked(1, 20, true)], 1),
     Sys(10, e1, 2, CarrierAccepted, [Leaving(0, 10), Leaving(1, 20)], 2)]
  }

  /** A run whose successive states are known. */
  lemma {:induction false} ExecAlong(states: seq<Sys>, run: seq<Step>)
    requires |states| == |run| + 1
    requires forall i :: 0 <= i < |run| ==> Next(states[i], run[i]) == states[i + 1]
    ensures Exec(states[0], run) == states[|run|]
    decreases |run|
  {
    if run != [] {
      ExecAlong(states[1..], run[1..]);
    }
  }

  lemma OverrunSteps(i: nat)
    requires i < 9
    ensures Next(OverrunStates()[i], OverrunRun()[i]) == OverrunStates()[i + 1]
  {
  }

  /** The accepting write comes at most `d` seconds after the key was acquired. */
  predicate Within(s: Sys, st: Step, d: int) {
    st.WriteStatus? && st.c < |s.callers| && s.callers[st.c].Checked? && s.callers[st.c].sawProposed ==>
      s.now - (s.callers[st.c].until - LOCK_TTL_SECONDS) <= d
  }

  predicate RunWithin(s: Sys, run: seq<Step>, d: int)
    decreases |run|
  {
    run == [] || (Within(s, run[0], d) && RunWithin(Next(s, run[0]), run[1..], d))
  }

  lemma {:induction false} WithinIsInTime(s: Sys, run: seq<Step>, d: int)
    requires RunWithin(s, run, d) && d < LOCK_TTL_SECONDS
    ensures RunInTime(s, run)
    decreases |run|
  {
    if run != [] {
      WithinIsInTime(Next(s, run[0]), run[1..], d);
    }
  }

  lemma {:induction false} WithinAlong(states: seq<Sys>, run: seq<Step>, d: int)
    requires |states| == |run| + 1
    requires forall i :: 0 <= i < |run| ==> Next(states[i], run[i]) == states[i + 1]
    requires forall i :: 0 <= i < |run| ==> Within(states[i], run[i], d)
    ensures RunWithin(states[0], run, d)
    decreases |run|
  {
    if run != [] {
      WithinAlong(states[1..], run[1..], d);
    }
  }

  ghost predicate AcceptsOnce(s0: Sys, run: seq<Step>) {
    Exec(s0, run).accepts <= 1
  }

  /** A section that outlives its lease: two callers accept the same proposal. */
  lemma OverrunAcceptsTwice()
    ensures Init(OverrunStates()[0]) && Exec(OverrunStates()[0], OverrunRun()).accepts == 2
  {
    forall i | 0 <= i < 9 ensures Next(OverrunStates()[i], OverrunRun()[i]) == OverrunStates()[i + 1] {
      OverrunSteps(i);
    }
    ExecAlong(OverrunStates(), OverrunRun());
  }

  /** Sections of up to `d` seconds accept at most once in every run exactly when `d` is under the ten-second lease. */
  lemma AcceptsOnceIff(d: int)
    ensures (forall s0: Sys, run: seq<Step> :: Init(s0) && RunWithin(s0, run, d) ==> AcceptsOnce(s0, run))
            <==> d < LOCK_TTL_SECONDS
  {
    if d < LOCK_TTL_SECONDS {
      forall s0: Sys, run: seq<Step> | Init(s0) && RunWithin(s0, run, d) ensures AcceptsOnce(s0, run) {
        WithinIsInTime(s0, run, d);
        LeaseSafety(s0, run);
      }
    } else {
      OverrunAcceptsTwice();
      forall i | 0 <= i < 9 ensures Next(OverrunStates()[i], OverrunRun()[i]) == OverrunStates()[i + 1] {
        OverrunSteps(i);
      }
      forall i | 0 <= i < 9 ensures Within(OverrunStates()[i], OverrunRun()[i], d) {}
      WithinAlong(OverrunStates(), OverrunRun(), d);
      assert !AcceptsOnce(OverrunStates()[0], OverrunRun());
    }
  }
}
