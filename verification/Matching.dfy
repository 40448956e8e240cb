/**
 Match proposals and the event cascade around them: a new match emits an event
 that asks for matching again. Which trips or requests a search retrieves is
 left open; each proposal commits as one transaction under the unique index on
 (trip, request).
 */
module Matching {
  import opened Common

  datatype Trip = Trip(carrier: nat, matches: set<nat>)

  datatype Request = Request(sender: nat, matched: bool)

  /** A match; its id is its position in the collection. */
  datatype Match = Match(trip: nat, request: nat, carrier: nat, sender: nat)

  datatype Topic = DeliveryLifecycle | TripLifecycle | PaymentLifecycle | OtherTopic

  datatype EventType =
    | DeliveryRequested | DeliveryUpdated | DeliveryCancelled | DeliveryPaid | TripPosted | TripUpdated | TripCancelled | OtherEvent

  datatype Envelope = Envelope(topic: Topic, eventType: EventType, subject: Option<nat>, payloadStatus: string, depositPaid: bool)

  datatype Trigger = Skipped | MatchRequest(r: nat) | MatchTrip(t: nat)

  datatype Book = Book(trips: seq<Trip>, requests: seq<Request>, matches: seq<Match>, queue: seq<Envelope>)

  /** `handleMessage`: which events ask the core for matching. */
  function HandleMessage(e: Envelope): Trigger {
    match e.topic
    case DeliveryLifecycle =>
      if e.subject.None? || e.payloadStatus == "cancelled" then Skipped
      else if e.eventType == DeliveryRequested || e.eventType == DeliveryUpdated then MatchRequest(e.subject.value)
      else Skipped
    case PaymentLifecycle =>
      if e.eventType == DeliveryPaid && e.subject.Some? then MatchRequest(e.subject.value) else Skipped
    case TripLifecycle =>
      if e.subject.None? || e.payloadStatus != "active" || !e.depositPaid then Skipped
      else if e.eventType == TripPosted || e.eventType == TripUpdated then MatchTrip(e.subject.value)
      else Skipped
    case OtherTopic => Skipped
  }

  // ---------------------------------------------------------------- reordering by a search ranking

  /** The ranked ids that are ids of ours, in the ranking's order. */
  function Ordered(ranking: seq<string>, ids: seq<string>): seq<string> {
    if ranking == [] then []
    else (if ranking[0] in ids then [ranking[0]] else []) + Ordered(ranking[1..], ids)
  }

  function Remainder(ids: seq<string>, seen: seq<string>): seq<string> {
    if ids == [] then []
    else (if ids[0] in seen then [] else [ids[0]]) + Remainder(ids[1..], seen)
  }

  /** `rankTripsWithRoutingSearch` and its twin for requests, given the ids the search answers with. */
  function Reorder(ids: seq<string>, ranking: seq<string>): Option<seq<string>> {
    if ids == [] then Some([])
    else if ranking == [] then None
    else Some(Ordered(ranking, ids) + Remainder(ids, Ordered(ranking, ids)))
  }

  ghost predicate NoRepeats(ids: seq<string>) {
    forall x: string :: multiset(ids)[x] <= 1
  }

  lemma {:induction false} OrderedIsOurs(ranking: seq<string>, ids: seq<string>, x: string)
    ensures x in Ordered(ranking, ids) <==> x in ranking && x in ids
  {
    if ranking != [] {
      OrderedIsOurs(ranking[1..], ids, x);
      assert ranking == [ranking[0]] + ranking[1..];
    }
  }

  lemma {:induction false} RemainderCount(ids: seq<string>, seen: seq<string>, x: string)
    ensures multiset(Remainder(ids, seen))[x] == if x in seen then 0 else multiset(ids)[x]
  {
    if ids != [] {
      RemainderCount(ids[1..], seen, x);
      assert ids == [ids[0]] + ids[1..];
    }
  }

  lemma ReorderCount(ids: seq<string>, ranking: seq<string>, x: string)
    requires Reorder(ids, ranking).Some? && ids != []
    ensures var front := Ordered(ranking, ids);
            && multiset(Reorder(ids, ranking).value)[x] == multiset(front)[x] + (if x in front then 0 else multiset(ids)[x])
            && (x in front ==> x in ids)
  {
    var front := Ordered(ranking, ids);
    var rest := Remainder(ids, front);
    OrderedIsOurs(ranking, ids, x);
    RemainderCount(ids, front, x);
    assert multiset(front + rest) == multiset(front) + multiset(rest);
  }

  /** Reordering neither loses nor invents an id. */
  lemma ReorderKeepsIds(ids: seq<string>, ranking: seq<string>, x: string)
    requires Reorder(ids, ranking).Some?
    ensures x in Reorder(ids, ranking).value <==> x in ids
  {
    if ids != [] {
      ReorderCount(ids, ranking, x);
      var r := Reorder(ids, ranking).value;
      assert x in r <==> multiset(r)[x] > 0;
      assert x in ids <==> multiset(ids)[x] > 0;
      assert x in Ordered(ranking, ids) <==> multiset(Ordered(ranking, ids))[x] > 0;
    }
  }

  /** Ranked ids come first, and each part of the ranking keeps its place. */
  lemma {:induction false} OrderedInParts(a: seq<string>, b: seq<string>, ids: seq<string>)
    ensures Ordered(a + b, ids) == Ordered(a, ids) + Ordered(b, ids)
  {
    if a == [] {
      assert a + b == b;
    } else {
      assert (a + b)[1..] == a[1..] + b;
      OrderedInParts(a[1..], b, ids);
      assert Ordered(a + b, ids) == Ordered([a[0]], ids) + Ordered(a[1..] + b, ids) by { assert [a[0]][1..] == []; }
      assert Ordered(a, ids) == Ordered([a[0]], ids) + Ordered(a[1..], ids) by { assert [a[0]][1..] == []; }
    }
  }

  lemma {:induction false} RemainderInParts(a: seq<string>, b: seq<string>, seen: seq<string>)
    ensures Remainder(a + b, seen) == Remainder(a, seen) + Remainder(b, seen)
  {
    if a == [] {
      assert a + b == b;
    } else {
      assert (a + b)[1..] == a[1..] + b;
      RemainderInParts(a[1..], b, seen);
      assert Remainder(a + b, seen) == Remainder([a[0]], seen) + Remainder(a[1..] + b, seen) by { assert [a[0]][1..] == []; }
      assert Remainder(a, seen) == Remainder([a[0]], seen) + Remainder(a[1..], seen) by { assert [a[0]][1..] == []; }
    }
  }

  predicate ComesBefore(r: seq<string>, x: string, y: string) {
    exists i, j :: 0 <= i < j < |r| && r[i] == x && r[j] == y
  }

  /** Whatever is in a first part comes before whatever is in a second. */
  lemma PartsInOrder(a: seq<string>, b: seq<string>, x: string, y: string)
    requires x in a && y in b
    ensures ComesBefore(a + b, x, y)
  {
    var i :| 0 <= i < |a| && a[i] == x;
    var j :| 0 <= j < |b| && b[j] == y;
    assert (a + b)[i] == x && (a + b)[|a| + j] == y;
  }

  lemma Extends(front: seq<string>, r: seq<string>, rest: seq<string>, x: string, y: string)
    requires ComesBefore(r, x, y)
    ensures ComesBefore(front + r + rest, x, y)
  {
    var i, j :| 0 <= i < j < |r| && r[i] == x && r[j] == y;
    assert (front + r + rest)[|front| + i] == x && (front + r + rest)[|front| + j] == y;
  }

  /** Of two ids of ours the one ranked earlier comes earlier. */
  lemma RankedInOrder(ids: seq<string>, ranking: seq<string>, x: string, y: string)
    requires Reorder(ids, ranking).Some? && x in ids && y in ids && ComesBefore(ranking, x, y)
    ensures ComesBefore(Reorder(ids, ranking).value, x, y)
  {
    var i, j :| 0 <= i < j < |ranking| && ranking[i] == x && ranking[j] == y;
    var a, b := ranking[..j], ranking[j..];
    assert ranking == a + b && a[i] == x && b[0] == y;
    OrderedInParts(a, b, ids);
    OrderedIsOurs(a, ids, x);
    OrderedIsOurs(b, ids, y);
    PartsInOrder(Ordered(a, ids), Ordered(b, ids), x, y);
    Extends([], Ordered(ranking, ids), Remainder(ids, Ordered(ranking, ids)), x, y);
    assert [] + Ordered(ranking, ids) == Ordered(ranking, ids);
  }

  lemma RemainderHas(ids: seq<string>, seen: seq<string>, x: string)
    requires x in ids && x !in seen
    ensures x in Remainder(ids, seen)
  {
    RemainderCount(ids, seen, x);
    assert multiset(ids)[x] > 0 && multiset(Remainder(ids, seen))[x] > 0;
  }

  /** A ranked id of ours comes before one that is not ranked. */
  lemma RankedFirst(ids: seq<string>, ranking: seq<string>, x: string, y: string)
    requires Reorder(ids, ranking).Some? && x in ids && y in ids && x in ranking && y !in ranking
    ensures ComesBefore(Reorder(ids, ranking).value, x, y)
  {
    var front := Ordered(ranking, ids);
    OrderedIsOurs(ranking, ids, x);
    OrderedIsOurs(ranking, ids, y);
    RemainderHas(ids, front, y);
    PartsInOrder(front, Remainder(ids, front), x, y);
  }

  /** Two ids that are not ranked stay in their order. */
  lemma UnrankedInOrder(ids: seq<string>, ranking: seq<string>, x: string, y: string)
    requires Reorder(ids, ranking).Some? && x !in ranking && y !in ranking && ComesBefore(ids, x, y)
    ensures ComesBefore(Reorder(ids, ranking).value, x, y)
  {
    var i, j :| 0 <= i < j < |ids| && ids[i] == x && ids[j] == y;
    var a, b, front := ids[..j], ids[j..], Ordered(ranking, ids);
    assert ids == a + b && a[i] == x && b[0] == y;
    OrderedIsOurs(ranking, ids, x);
    OrderedIsOurs(ranking, ids, y);
    RemainderInParts(a, b, front);
    RemainderHas(a, front, x);
    RemainderHas(b, front, y);
    PartsInOrder(Remainder(a, front), Remainder(b, front), x, y);
    Extends(front, Remainder(ids, front), [], x, y);
    assert front + Remainder(ids, front) + [] == front + Remainder(ids, front);
  }

  /** It is a permutation exactly when the ranking names no id of ours twice. */
  lemma ReorderPermutesIff(ids: seq<string>, ranking: seq<string>)
    requires NoRepeats(ids) && Reorder(ids, ranking).Some?
    ensures multiset(Reorder(ids, ranking).value) == multiset(ids) <==> ids == [] || NoRepeats(Ordered(ranking, ids))
  {
    if ids != [] {
      var r, front := Reorder(ids, ranking).value, Ordered(ranking, ids);
      forall x: string
        ensures multiset(r)[x] == multiset(ids)[x] <==> multiset(front)[x] <= 1
      {
        ReorderCount(ids, ranking, x);
        assert x in front <==> multiset(front)[x] > 0;
        assert x in ids <==> multiset(ids)[x] > 0;
        assert multiset(ids)[x] <= 1;
      }
      if NoRepeats(front) {
        assert multiset(r) == multiset(ids);
      }
    }
  }

  // ---------------------------------------------------------------- one proposal

  predicate Exists(matches: seq<Match>, t: nat, r: nat) {
    exists m :: 0 <= m < |matches| && matches[m].trip == t && matches[m].request == r
  }

  predicate Eligible(b: Book, t: nat, r: nat) {
    t < |b.trips| && r < |b.requests| && b.trips[t].carrier != b.requests[r].sender
  }

  function Updated(r: nat): Envelope {
    Envelope(DeliveryLifecycle, DeliveryUpdated, Some(r), "matched", false)
  }

  /** The committed transaction: insert, trip's set, request status, outbox event. A duplicate key changes nothing. */
  function Propose(b: Book, t: nat, r: nat): Book {
    if !Eligible(b, t, r) || Exists(b.matches, t, r) then b
    else
      var m := |b.matches|;
      Book(b.trips[t := b.trips[t].(matches := b.trips[t].matches + {m})],
           b.requests[r := b.requests[r].(matched := true)],
           b.matches + [Match(t, r, b.trips[t].carrier, b.requests[r].sender)],
           b.queue + [Updated(r)])
  }

  function ProposeAll(b: Book, pairs: seq<(nat, nat)>): Book
    decreases |pairs|
  {
    if pairs == [] then b else ProposeAll(Propose(b, pairs[0].0, pairs[0].1), pairs[1..])
  }

  /** The pairs a trigger proposes: at most five trips for a request, any number of requests for a trip. */
  function Pairs(trigger: Trigger, retrieved: seq<nat>): seq<(nat, nat)> {
    match trigger
    case Skipped => []
    case MatchRequest(r) =>
      var best := if |retrieved| > 5 then retrieved[..5] else retrieved;
      seq(|best|, i requires 0 <= i < |best| => (best[i], r))
    case MatchTrip(t) => seq(|retrieved|, i requires 0 <= i < |retrieved| => (t, retrieved[i]))
  }

  /** The consumer takes one event off the queue and acts on it. */
  function Process(b: Book, retrieved: seq<nat>): Book {
    if b.queue == [] then b
    else ProposeAll(b.(queue := b.queue[1..]), Pairs(HandleMessage(b.queue[0]), retrieved))
  }

  // ---------------------------------------------------------------- invariant

  function PairOf(x: Match): (nat, nat) {
    (x.trip, x.request)
  }

  predicate MatchOk(b: Book, m: nat)
    requires m < |b.matches|
  {
    var x := b.matches[m];
    && x.trip < |b.trips| && x.request < |b.requests|
    && x.carrier == b.trips[x.trip].carrier && x.sender == b.requests[x.request].sender && x.carrier != x.sender
    && m in b.trips[x.trip].matches
    && b.requests[x.request].matched
  }

  /** The trip's set holds only matches that name it. */
  predicate TripOk(b: Book, t: nat)
    requires t < |b.trips|
  {
    forall m <- b.trips[t].matches :: m < |b.matches| && b.matches[m].trip == t
  }

  predicate Valid(b: Book) {
    && (forall m :: 0 <= m < |b.matches| ==> MatchOk(b, m))
    && (forall m, n :: 0 <= m < n < |b.matches| ==> PairOf(b.matches[m]) != PairOf(b.matches[n]))
    && (forall t :: 0 <= t < |b.trips| ==> TripOk(b, t))
  }

  /** Pairs of trip and request that have no match yet. */
  function Missing(b: Book): int {
    |b.trips| * |b.requests| - |b.matches|
  }

  function Measure(b: Book): int {
    2 * Missing(b) + |b.queue|
  }

  // ---------------------------------------------------------------- lemmas

  lemma ProposeKeeps(b: Book, t: nat, r: nat)
    requires Valid(b)
    ensures Valid(Propose(b, t, r))
    ensures Measure(Propose(b, t, r)) <= Measure(b)
    ensures Propose(b, t, r).queue != b.queue ==> |Propose(b, t, r).matches| == |b.matches| + 1
    ensures Eligible(b, t, r) ==> Exists(Propose(b, t, r).matches, t, r)
  {
    var after := Propose(b, t, r);
    if after != b {
      forall m | 0 <= m < |after.matches| ensures MatchOk(after, m) {
        if m < |b.matches| { assert MatchOk(b, m); }
      }
      forall k | 0 <= k < |after.trips| ensures TripOk(after, k) {
        assert TripOk(b, k);
      }
      assert after.matches[|b.matches|].trip == t;
    }
  }

  lemma {:induction false} ProposeAllKeeps(b: Book, pairs: seq<(nat, nat)>)
    requires Valid(b)
    ensures Valid(ProposeAll(b, pairs)) && Measure(ProposeAll(b, pairs)) <= Measure(b)
    ensures |ProposeAll(b, pairs).trips| == |b.trips| && |ProposeAll(b, pairs).requests| == |b.requests|
    decreases |pairs|
  {
    if pairs != [] {
      ProposeKeeps(b, pairs[0].0, pairs[0].1);
      ProposeAllKeeps(Propose(b, pairs[0].0, pairs[0].1), pairs[1..]);
    }
  }

  /** Numbers below `n` without repeats are at most `n` many. */
  lemma {:induction false} Pigeonhole(codes: set<int>, n: nat)
    requires forall c <- codes :: 0 <= c < n
    ensures |codes| <= n
    decreases n
  {
    if n > 0 {
      Pigeonhole(codes - {n - 1}, n - 1);
    } else {
      assert forall c: int :: c !in codes;
      assert codes == {};
    }
  }

  lemma {:induction false} MulStep(a: nat, b: nat, c: nat)
    requires a < b
    ensures a * c + c <= b * c
    decreases b
  {
    assert b * c == (b - 1) * c + c;
    if a < b - 1 {
      MulStep(a, b - 1, c);
    }
  }

  lemma PairCodes(t: nat, r: nat, t': nat, r': nat, trips: nat, requests: nat)
    requires t < trips && t' < trips && r < requests && r' < requests
    ensures 0 <= t * requests + r < trips * requests
    ensures t * requests + r == t' * requests + r' ==> t == t' && r == r'
  {
    MulStep(t, trips, requests);
    if t < t' {
      MulStep(t, t', requests);
    } else if t' < t {
      MulStep(t', t, requests);
    }
  }

  function Code(b: Book, m: nat): int
    requires m < |b.matches|
  {
    b.matches[m].trip * |b.requests| + b.matches[m].request
  }

  function CodesUpTo(b: Book, n: nat): set<int>
    requires n <= |b.matches|
  {
    if n == 0 then {} else CodesUpTo(b, n - 1) + {Code(b, n - 1)}
  }

  lemma DifferentCodes(b: Book, m: nat, n: nat)
    requires Valid(b) && m < n < |b.matches|
    ensures Code(b, m) != Code(b, n)
  {
    var x, y := b.matches[m], b.matches[n];
    assert MatchOk(b, m) && MatchOk(b, n) && PairOf(x) != PairOf(y);
    PairCodes(x.trip, x.request, y.trip, y.request, |b.trips|, |b.requests|);
  }

  /** The codes are those of the matches, and one for each. */
  lemma {:induction false} CodesDistinct(b: Book, n: nat)
    requires Valid(b) && n <= |b.matches|
    ensures forall c <- CodesUpTo(b, n) :: exists m :: 0 <= m < n && c == Code(b, m)
    ensures |CodesUpTo(b, n)| == n
    decreases n
  {
    if n > 0 {
      CodesDistinct(b, n - 1);
      forall m | 0 <= m < n - 1 ensures Code(b, m) != Code(b, n - 1) {
        DifferentCodes(b, m, n - 1);
      }
      assert Code(b, n - 1) !in CodesUpTo(b, n - 1);
    }
  }

  /** There are never more matches than pairs. */
  lemma NeverMoreThanPairs(b: Book)
    requires Valid(b)
    ensures Missing(b) >= 0
  {
    var codes := CodesUpTo(b, |b.matches|);
    CodesDistinct(b, |b.matches|);
    forall c <- codes ensures 0 <= c < |b.trips| * |b.requests| {
      var m :| 0 <= m < |b.matches| && c == Code(b, m);
      assert MatchOk(b, m);
      PairCodes(b.matches[m].trip, b.matches[m].request, b.matches[m].trip, b.matches[m].request, |b.trips|, |b.requests|);
    }
    Pigeonhole(codes, |b.trips| * |b.requests|);
  }

  lemma PoppedValid(b: Book)
    requires Valid(b) && b.queue != []
    ensures Valid(b.(queue := b.queue[1..]))
  {
    var popped := b.(queue := b.queue[1..]);
    forall m | 0 <= m < |b.matches| ensures MatchOk(popped, m) { assert MatchOk(b, m); }
    forall t | 0 <= t < |b.trips| ensures TripOk(popped, t) { assert TripOk(b, t); }
  }

  /** Every processed event brings the cascade strictly closer to its end. */
  lemma ProcessDecreases(b: Book, retrieved: seq<nat>)
    requires Valid(b)
    ensures Valid(Process(b, retrieved))
    ensures b.queue != [] ==> Measure(Process(b, retrieved)) < Measure(b)
    ensures Measure(Process(b, retrieved)) >= 0
    ensures |Process(b, retrieved).trips| == |b.trips| && |Process(b, retrieved).requests| == |b.requests|
  {
    if b.queue != [] {
      var popped := b.(queue := b.queue[1..]);
      PoppedValid(b);
      ProposeAllKeeps(popped, Pairs(HandleMessage(b.queue[0]), retrieved));
    }
    NeverMoreThanPairs(Process(b, retrieved));
  }

  function ProcessAll(b: Book, searches: seq<seq<nat>>): Book
    decreases |searches|
  {
    if searches == [] then b else ProcessAll(Process(b, searches[0]), searches[1..])
  }

  lemma {:induction false} QuietQueue(b: Book, searches: seq<seq<nat>>)
    requires b.queue == []
    ensures ProcessAll(b, searches) == b
    decreases |searches|
  {
    if searches != [] {
      QuietQueue(b, searches[1..]);
    }
  }

  /** However searches answer, the queue is empty after at most `Measure` events. */
  lemma {:induction false} CascadeEnds(b: Book, searches: seq<seq<nat>>)
    requires Valid(b) && |searches| >= Measure(b)
    ensures Valid(ProcessAll(b, searches)) && ProcessAll(b, searches).queue == []
    decreases |searches|
  {
    NeverMoreThanPairs(b);
    if searches != [] {
      ProcessDecreases(b, searches[0]);
      if b.queue == [] {
        QuietQueue(b, searches);
      } else {
        CascadeEnds(Process(b, searches[0]), searches[1..]);
      }
    }
  }

  // ---------------------------------------------------------------- what events lead to

  /** A live delivery request was made, changed or paid. */
  predicate AsksForTrips(e: Envelope) {
    e.subject.Some? &&
    ((e.topic == DeliveryLifecycle && e.payloadStatus != "cancelled" && (e.eventType == DeliveryRequested || e.eventType == DeliveryUpdated))
     || (e.topic == PaymentLifecycle && e.eventType == DeliveryPaid))
  }

  /** An active trip whose deposit is paid was posted or changed. */
  predicate AsksForRequests(e: Envelope) {
    && e.topic == TripLifecycle && e.subject.Some? && (e.eventType == TripPosted || e.eventType == TripUpdated)
    && e.payloadStatus == "active" && e.depositPaid
  }

  /** The pairs the event asks about: the request with the first five trips retrieved, or the trip with every request. */
  predicate AsksAbout(e: Envelope, retrieved: seq<nat>, t: nat, r: nat) {
    || (AsksForTrips(e) && r == e.subject.value && exists i :: 0 <= i < |retrieved| && i < 5 && retrieved[i] == t)
    || (AsksForRequests(e) && t == e.subject.value && r in retrieved)
  }

  /** Every eligible pair the event asks about has a match. */
  ghost predicate Answered(b: Book, e: Envelope, retrieved: seq<nat>) {
    forall t: nat, r: nat :: AsksAbout(e, retrieved, t, r) && Eligible(b, t, r) ==> Exists(b.matches, t, r)
  }

  /** Matches and events are only added; carriers and senders stay. */
  predicate Grows(a: Book, b: Book) {
    && a.matches <= b.matches && a.queue <= b.queue && |a.trips| == |b.trips| && |a.requests| == |b.requests|
    && (forall t :: 0 <= t < |a.trips| ==> a.trips[t].carrier == b.trips[t].carrier)
    && (forall r :: 0 <= r < |a.requests| ==> a.requests[r].sender == b.requests[r].sender)
  }

  lemma GrowsKeeps(a: Book, b: Book, t: nat, r: nat)
    requires Grows(a, b)
    ensures Eligible(a, t, r) <==> Eligible(b, t, r)
    ensures Exists(a.matches, t, r) ==> Exists(b.matches, t, r)
  {
    if Exists(a.matches, t, r) {
      var m :| 0 <= m < |a.matches| && a.matches[m].trip == t && a.matches[m].request == r;
      assert b.matches[m] == a.matches[m];
    }
  }

  lemma AnsweredStays(a: Book, b: Book, e: Envelope, retrieved: seq<nat>)
    requires Answered(a, e, retrieved) && Grows(a, b)
    ensures Answered(b, e, retrieved)
  {
    forall t: nat, r: nat | AsksAbout(e, retrieved, t, r) && Eligible(b, t, r) ensures Exists(b.matches, t, r) {
      GrowsKeeps(a, b, t, r);
    }
  }

  /** The queue has no part in it. */
  lemma SameAnswers(a: Book, b: Book, e: Envelope, retrieved: seq<nat>)
    requires Answered(a, e, retrieved) && b == a.(queue := b.queue)
    ensures Answered(b, e, retrieved)
  {
    forall t: nat, r: nat | AsksAbout(e, retrieved, t, r) && Eligible(b, t, r) ensures Exists(b.matches, t, r) {
      assert Eligible(a, t, r);
    }
  }

  lemma ProposeMatches(b: Book, t: nat, r: nat)
    ensures Grows(b, Propose(b, t, r)) && (Eligible(b, t, r) ==> Exists(Propose(b, t, r).matches, t, r))
    ensures forall m :: |b.matches| <= m < |Propose(b, t, r).matches| ==> PairOf(Propose(b, t, r).matches[m]) == (t, r)
  {
    var after := Propose(b, t, r);
    if after != b { assert after.matches[|b.matches|].trip == t; }
  }

  /** Afterwards every eligible pair has a match, and every new match is of one of the pairs. */
  lemma {:induction false} ProposeAllMatches(b: Book, pairs: seq<(nat, nat)>)
    ensures Grows(b, ProposeAll(b, pairs))
    ensures forall p <- pairs :: Eligible(b, p.0, p.1) ==> Exists(ProposeAll(b, pairs).matches, p.0, p.1)
    ensures forall m :: |b.matches| <= m < |ProposeAll(b, pairs).matches| ==> PairOf(ProposeAll(b, pairs).matches[m]) in pairs
    decreases |pairs|
  {
    if pairs != [] {
      var next, after := Propose(b, pairs[0].0, pairs[0].1), ProposeAll(b, pairs);
      ProposeMatches(b, pairs[0].0, pairs[0].1);
      ProposeAllMatches(next, pairs[1..]);
      forall p <- pairs | Eligible(b, p.0, p.1) ensures Exists(after.matches, p.0, p.1) {
        GrowsKeeps(b, next, p.0, p.1);
        GrowsKeeps(next, after, p.0, p.1);
        assert p == pairs[0] || p in pairs[1..];
      }
      forall m | |b.matches| <= m < |after.matches| ensures PairOf(after.matches[m]) in pairs {
        if m < |next.matches| { assert after.matches[m] == next.matches[m]; }
      }
    }
  }

  /** The trigger proposes exactly the pairs the event asks about. */
  lemma PairsAsked(e: Envelope, retrieved: seq<nat>, t: nat, r: nat)
    ensures (t, r) in Pairs(HandleMessage(e), retrieved) <==> AsksAbout(e, retrieved, t, r)
  {
    var pairs := Pairs(HandleMessage(e), retrieved);
    if AsksForTrips(e) && r == e.subject.value {
      if i :| 0 <= i < |retrieved| && i < 5 && retrieved[i] == t { assert pairs[i] == (t, r); }
    }
    if AsksForRequests(e) && t == e.subject.value && r in retrieved {
      var i :| 0 <= i < |retrieved| && retrieved[i] == r;
      assert pairs[i] == (t, r);
    }
    if (t, r) in pairs {
      var i :| 0 <= i < |pairs| && pairs[i] == (t, r);
      assert retrieved[i] == if AsksForTrips(e) then t else r;
    }
  }

  /**
   Taking an event off the queue matches every eligible pair it asks about and
   no other; an event that asks for nothing changes nothing.
   */
  lemma ProcessAnswers(b: Book, retrieved: seq<nat>)
    requires b.queue != []
    ensures var e, after, popped := b.queue[0], Process(b, retrieved), b.(queue := b.queue[1..]);
            && Answered(after, e, retrieved) && Grows(popped, after)
            && (forall m :: |b.matches| <= m < |after.matches| ==>
                  AsksAbout(e, retrieved, after.matches[m].trip, after.matches[m].request))
            && (!AsksForTrips(e) && !AsksForRequests(e) ==> after == popped)
  {
    var e, after, popped := b.queue[0], Process(b, retrieved), b.(queue := b.queue[1..]);
    var pairs := Pairs(HandleMessage(e), retrieved);
    ProposeAllMatches(popped, pairs);
    forall t: nat, r: nat | AsksAbout(e, retrieved, t, r) && Eligible(after, t, r) ensures Exists(after.matches, t, r) {
      PairsAsked(e, retrieved, t, r);
      GrowsKeeps(popped, after, t, r);
      assert Eligible(popped, (t, r).0, (t, r).1);
    }
    forall m | |b.matches| <= m < |after.matches|
      ensures AsksAbout(e, retrieved, after.matches[m].trip, after.matches[m].request)
    {
      PairsAsked(e, retrieved, after.matches[m].trip, after.matches[m].request);
    }
    if !AsksForTrips(e) && !AsksForRequests(e) && pairs != [] {
      PairsAsked(e, retrieved, pairs[0].0, pairs[0].1);
    }
  }

  /** Each of the events, in the order they were consumed, with what its search retrieved. */
  ghost predicate AllAnswered(b: Book, consumed: seq<Envelope>, search: nat -> seq<nat>) {
    forall k: nat :: k < |consumed| ==> Answered(b, consumed[k], search(k))
  }

  lemma OneMoreAnswered(b: Book, consumed: seq<Envelope>, search: nat -> seq<nat>)
    requires b.queue != [] && AllAnswered(b, consumed, search)
    ensures var after := Process(b, search(|consumed|));
            AllAnswered(after, consumed + [b.queue[0]], search) && Grows(b.(queue := b.queue[1..]), after)
  {
    var popped, after, n := b.(queue := b.queue[1..]), Process(b, search(|consumed|)), |consumed|;
    ProcessAnswers(b, search(n));
    forall k: nat | k < n + 1 ensures Answered(after, (consumed + [b.queue[0]])[k], search(k)) {
      if k < n {
        SameAnswers(b, popped, consumed[k], search(k));
        AnsweredStays(popped, after, consumed[k], search(k));
      }
    }
  }

  // ---------------------------------------------------------------- as it runs

  class MatchingService {
    var trips: seq<Trip>
    var requests: seq<Request>
    var matches: seq<Match>
    var queue: seq<Envelope>

    function At(): Book
      reads this
    {
      Book(trips, requests, matches, queue)
    }

    constructor (trips: seq<Trip>, requests: seq<Request>, queue: seq<Envelope>)
      requires forall t <- trips :: t.matches == {}
      ensures At() == Book(trips, requests, [], queue) && Valid(At())
    {
      this.trips, this.requests, matches, this.queue := trips, requests, [], queue;
    }

    method FindExisting(t: nat, r: nat) returns (found: Option<nat>)
      ensures found.Some? <==> Exists(matches, t, r)
      ensures found.Some? ==> found.value < |matches| && PairOf(matches[found.value]) == (t, r)
    {
      for m := 0 to |matches|
        invariant forall k :: 0 <= k < m ==> PairOf(matches[k]) != (t, r)
      {
        if matches[m].trip == t && matches[m].request == r {
          return Some(m);
        }
      }
      return None;
    }

    /** The transaction: it writes everything, or the unique index refuses the insert and it writes nothing. */
    method InsertProposal(t: nat, r: nat) returns (created: Option<nat>)
      requires Valid(At()) && Eligible(At(), t, r)
      modifies this
      ensures At() == Propose(old(At()), t, r) && Valid(At())
      ensures created.None? <==> Exists(old(matches), t, r)
      ensures created.None? ==> At() == old(At())
      ensures created.Some? ==>
                && created.value == |old(matches)|
                && matches == old(matches) + [Match(t, r, old(trips)[t].carrier, old(requests)[r].sender)]
                && trips == old(trips)[t := Trip(old(trips)[t].carrier, old(trips)[t].matches + {created.value})]
                && requests == old(requests)[r := Request(old(requests)[r].sender, true)]
                && queue == old(queue) + [Envelope(DeliveryLifecycle, DeliveryUpdated, Some(r), "matched", false)]
      ensures created.Some? ==> created.value < |matches| && PairOf(matches[created.value]) == (t, r)
    {
      ProposeKeeps(At(), t, r);
      if exists m :: 0 <= m < |matches| && matches[m].trip == t && matches[m].request == r {
        return None;
      }
      var id := |matches|;
      matches := matches + [Match(t, r, trips[t].carrier, requests[r].sender)];
      trips := trips[t := trips[t].(matches := trips[t].matches + {id})];
      requests := requests[r := requests[r].(matched := true)];
      queue := queue + [Updated(r)];
      created := Some(id);
    }

    /** Creates the match, or after a duplicate key looks up the one that is there. */
    method CreateMatchProposal(t: nat, r: nat) returns (id: nat)
      requires Valid(At()) && Eligible(At(), t, r)
      modifies this
      ensures At() == Propose(old(At()), t, r) && Valid(At())
      ensures id < |matches| && PairOf(matches[id]) == (t, r)
    {
      var created := InsertProposal(t, r);
      if created.Some? {
        return created.value;
      }
      var existing := FindExisting(t, r);
      id := existing.value;
    }

    /** The loops of `findMatches` and `matchTripAgainstPendingRequests`: a carrier's own requests are passed over. */
    method ProposeEach(pairs: seq<(nat, nat)>)
      requires Valid(At())
      modifies this
      ensures At() == ProposeAll(old(At()), pairs) && Valid(At())
    {
      var rest := pairs;
      ProposeAllKeeps(At(), pairs);
      while rest != []
        invariant Valid(At()) && ProposeAll(At(), rest) == ProposeAll(old(At()), pairs)
        decreases |rest|
      {
        var (t, r) := rest[0];
        if t < |trips| && r < |requests| && trips[t].carrier != requests[r].sender {
          var _ := CreateMatchProposal(t, r);
        }
        rest := rest[1..];
      }
    }

    /**
     Consumes events in order until none is left; `search` answers the n-th
     retrieval. Every event consumed has its eligible pairs matched at the end.
     */
    method Drain(search: nat -> seq<nat>) returns (processed: nat, ghost consumed: seq<Envelope>)
      requires Valid(At())
      modifies this
      ensures Valid(At()) && queue == [] && Grows(old(At()).(queue := []), At())
      ensures processed <= Measure(old(At()))
      ensures |consumed| == processed && old(queue) <= consumed
      ensures AllAnswered(At(), consumed, search)
    {
      processed, consumed := 0, [];
      NeverMoreThanPairs(At());
      while queue != []
        invariant Valid(At()) && Measure(At()) >= 0
        invariant processed + Measure(At()) <= Measure(old(At()))
        invariant |consumed| == processed && old(queue) <= consumed + queue
        invariant Grows(old(At()).(queue := []), At())
        invariant AllAnswered(At(), consumed, search)
        decreases Measure(At())
      {
        ghost var before := At();
        ProcessDecreases(At(), search(processed));
        OneMoreAnswered(At(), consumed, search);
        var event := queue[0];
        queue := queue[1..];
        assert Valid(At()) by { PoppedValid(before); }
        ProposeEach(Pairs(HandleMessage(event), search(processed)));
        assert At() == Process(before, search(processed));
        assert consumed + before.queue == (consumed + [event]) + before.queue[1..];
        consumed := consumed + [event];
        processed := processed + 1;
      }
      assert consumed + queue == consumed;
    }
  }
}
