# HopDrop backend: models and proofs

HopDrop is an intercity parcel marketplace: senders post delivery requests,
travellers post trips, a match brings one of each together, two one-time codes
track custody of the parcel, and an escrow pays the carrier at the end. This
project models the parts of its backend whose promises span whole runs, and
proves those promises for every run.

| part | modules |
|---|---|
| escrow and payout under snapshot transactions | `EscrowStore`, `EscrowRuns`, `EscrowService`, `Settlement` |
| custody and escrow together | `Deliveries` |
| inverted search index and click counts | `Ranking`, `SearchDocuments`, `SearchIndex`, `SearchClicks` |
| transactional outbox and its relay | `OutboxEvents`, `OutboxRelay` |
| match, codes, lock, payment | `MatchStates`, `Otp`, `Custody`, `MatchService`, `LeaseLock`, `Payments`, `PaymentRaces`, `PaymentOrders` |
| matching cascade | `Matching` |
| quotes and rate tiers | `Pricing`, `RateTiers` |

Concurrent parts come in two layers. A state machine (`Sys`, `Step`, `Next`,
`Exec`) takes one await at a time, so calls interleave with each other, with
other services and with crashes; invariants are proved step by step and lifted
to runs. Beside it a class does what the service does, in the service's own
order, and each of its methods is proved against the state machine or against a
function on the state.

How the outside world enters:

- **MongoDB.** A transaction reads a snapshot and buffers the `$set`, `$inc`
  and insert it would send; its commit is refused when a document it writes has
  a newer version (first committer wins). A commit whose result is unknown may
  reach the store at once, at any later point, or never.
- **Time, randomness, cell ids, distances, search answers, Kafka and the
  outcome of every write** are parameters of steps and methods, so results hold
  for every choice of them.
- **Signatures and code hashes** are opaque: a flag, and equality of codes.
- **Floats** are exact reals and `Math.round(x)` is `floor(x + 1/2)`.

## What the proofs found

- A match is settled at most once, in every run, exactly when the amounts its
  releases may be priced at all move money, or all differ from the payout the
  match shows (`EscrowRuns.OnceIffKeptApart`). The `exists` check inside the
  transaction reads a snapshot, so only a document that every release writes
  keeps two workers apart: the carrier's when money moves, the match's when the
  shown payout changes. Every match is created showing the earning of its
  quote, which is never zero, so at amounts that stay as they are it is always
  settled at most once (`Settlement.CreatedSettlesOnce`). Two releases priced
  differently, one at nothing and one at the shown payout, can both commit when
  there is no escrow to take (`EscrowRuns.RaceSettlesTwice`).
- `holdFunds` has no check of its own. The ledger shows one hold per returned
  call exactly when no hold whose commit was reported as unknown landed
  (`EscrowRuns.HoldsExactIff`); otherwise an amount is held twice
  (`EscrowRuns.UnknownCommitHoldsTwice`).
- The bounds on attempts and sends survive every failure, but a published
  outbox event stays published, and an expiry date means finished, exactly when
  no applied mark can lose its reply (`OutboxEvents.PublishedForGoodIff`,
  `OutboxEvents.ExpiryMeansFinishedIff`): the relay's `catch` also covers the
  mark, and a release rewrites the status unconditionally.
- `flushOutboxBatch` has no `catch` around its claims, and a release that throws
  ends it too. An event stays behind, processing until the relay is restarted,
  in some run exactly when a claim can fail after the first of its batch, an
  applied claim or release can lose its reply, or a release can fail
  (`OutboxEvents.NoneStrandedIff`).
- The accept lock keeps a proposal from being accepted twice exactly when the
  write comes less than ten seconds after the key was acquired
  (`LeaseLock.AcceptsOnceIff`). The lock is `SET NX EX 10`; the
  repository's README (line 57) speaks of `PX 5000`, and the code is followed
  here.
- Once a `senderConfirm` and a `confirmDeliveryPayment` have succeeded there is
  exactly one hold, in every run, if and only if no two such calls overlap and
  none ends halfway (`PaymentRaces.HeldOnceIff`). A confirmation beside a
  payment can leave no hold, two confirmations or two payments can leave two,
  and a payment that ends between its write and its hold is never completed,
  because the next call finds the request paid.
- A payment looks its order up by id alone. An order pays for at most one
  request, and what is held is what was paid, exactly when requests are paid
  with their own orders (`PaymentOrders.OwnOrdersIff`). What is held is the
  request's charge, whichever order is paid, exactly when it had a charge
  (`Payments.ChargeHeldIff`).
- A release takes out of each escrow at most what is there. What it pays beyond
  that is new money, and it is zero exactly when both escrows cover it
  (`EscrowStore.DriftZeroIff`, `EscrowRuns.BooksAccount`).
- The premium tier pays at least the balanced one when any request is pending;
  with none, exactly when its stand-in parcel is not lighter
  (`RateTiers.PremiumOrderedIff`), which the fallback utilizations do not
  ensure (`RateTiers.PremiumCanPayLess`).
- With only a charge stored, payout and fee add up to the charge exactly when
  the computed fee does not exceed it (`Settlement.ChargeOnlySettlement`).
- A disputed match sets its delivery request back to pending: the status table
  has no entry for it (`MatchStates.DeliveryStatusOf`).

## Model

| member | source | states |
|---|---|---|
| EscrowRuns.ExactlyOncePayout | backend/src/services/escrow.service.ts:43-145 | over every interleaving of releases of any matches with holds, retries, unknown commits and other wallet writers, whatever other matches pay: a match whose own prices are kept apart is unsettled or settled by exactly one release's three rows to its own carrier and sender, of amounts priced for it in this run, and shows that payout; and it is settled once any call for it returned normally |
| EscrowRuns.OnceIffKeptApart | backend/src/services/escrow.service.ts:91-141 | for a match that shows a given payout and may be released at given amounts, every run settles it at most once if and only if all those amounts move money or all differ from the shown payout |
| EscrowRuns.RaceSettlesTwice | backend/src/services/escrow.service.ts:91-141 | the run that shows it: one worker's price moves nothing, the other's is what the match shows, they write no document in common and commit six rows |
| EscrowRuns.SettlementIsFinal | backend/src/services/escrow.service.ts:49-61 | once written, a match's settlement is the same after every continuation of the run, whatever other matches do |
| EscrowRuns.BalanceIsLedger | backend/src/services/escrow.service.ts:103-108 | no lost update, in every run whatever is paid: although a release writes absolute values from a snapshot, each balance is its initial value plus its committed release and payout rows plus what other services added |
| EscrowStore.BalanceCommit | backend/src/services/escrow.service.ts:78-142 | any commit that is not refused moves each balance by exactly what its rows credit, however stale its snapshot |
| EscrowStore.StillUnsettled | backend/src/services/escrow.service.ts:91-108 | a release that commits after a clean check finds the live ledger unsettled too, because the document every release of the match writes has not been written since |
| EscrowStore.ReleaseCommit | backend/src/services/escrow.service.ts:103-141 | such a commit settles its match with exactly its three rows at its price, moves the guarding document, and keeps the match in order |
| EscrowStore.ReleaseUsers | backend/src/services/escrow.service.ts:103-108 | field by field what both saves do to the live users, whether or not each save had anything to write, also when one user is both parties |
| EscrowStore.TwoSaves | backend/src/services/escrow.service.ts:107-108 | the live users after the commit are those of the carrier's save and then the sender's, and a save that wrote has met an unchanged document |
| EscrowStore.MatchesAfterRelease | backend/src/services/escrow.service.ts:140-141 | the match save writes the payout, or nothing when it already shows it |
| EscrowStore.HoldCommit | backend/src/services/escrow.service.ts:19-40 | a committed hold adds its amount to one escrow, leaves every balance and match, and adds nothing to any settlement |
| EscrowStore.OtherCommit | backend/src/services/escrow.service.ts:19-142 | a committed hold, or release of another match, leaves a match's document and settlement as they were |
| EscrowStore.CommitKeeps | backend/src/services/escrow.service.ts:19-142 | whatever commits, a watched match stays unsettled with its shown payout or settled once, and a committed release of it leaves it settled |
| EscrowStore.PayoutMeansSettled | backend/src/services/escrow.service.ts:50-54 | the idempotency query answers yes exactly for settled matches |
| EscrowRuns.RunKeeps | backend/src/utils/mongoTransactions.ts:33-53 | every run keeps, for each match whose prices are kept apart: the match in order, every open or in-doubt transaction on a snapshot from which the match has only evolved, and every returned release settled |
| EscrowRuns.DocsStep | backend/src/utils/mongoTransactions.ts:33-53 | every step, whatever is paid, keeps each open or in-doubt transaction its body on a snapshot whose documents have since only gained versions |
| EscrowRuns.DbKeeps | backend/src/utils/mongoTransactions.ts:8-17 | every step keeps the match in order, also a commit reported as unknown that lands at any later point |
| EscrowRuns.WorkerKeeps | backend/src/utils/mongoTransactions.ts:34-51 | every step keeps each worker in order: what it was priced at, what it has open, and that a returned release has settled |
| EscrowStore.DriftZeroIff | backend/src/services/escrow.service.ts:103-105 | with payout and fee adding up to the charge, a release never loses money and makes none exactly when both escrows cover it |
| EscrowStore.BooksCommit | backend/src/services/escrow.service.ts:103-138 | a commit moves balances plus escrow plus fees, less new holds, by exactly its shortfall |
| EscrowRuns.BooksAccount | backend/src/services/escrow.service.ts:70-138 | over every run balances plus escrow plus fees, less new holds, are what they were plus the shortfall of each committed release plus what came from outside |
| EscrowRuns.MoneyConserved | backend/src/services/escrow.service.ts:70-138 | over a run whose releases are covered by the escrows their snapshots show, the books never change |
| EscrowRuns.HoldsExactIff | backend/src/services/escrow.service.ts:10-41 | after every run there are at least as many hold rows as returned hold calls, and equally many if and only if no in-doubt hold landed |
| EscrowRuns.UnknownCommitHoldsTwice | backend/src/utils/mongoTransactions.ts:13-48 | a concrete run in which one hold call writes two rows and holds twice the amount |
| EscrowService.Session.ReleaseBody | backend/src/services/escrow.service.ts:78-142 | the transaction body as it runs, on loaded documents: it throws exactly when a document is gone, and otherwise buffers the release the state machine commits |
| EscrowService.Session.Save | backend/src/services/escrow.service.ts:107-108 | a save sends only modified paths, and nothing when there are none |
| EscrowService.Service.Attempt | backend/src/utils/mongoTransactions.ts:35-51 | one turn of the loop among other workers' steps: done means settled, giving up means a missing document or another error, an undisturbed turn is done, and a commit of unknown result stays in doubt among the others' steps |
| EscrowService.Service.Retry | backend/src/utils/mongoTransactions.ts:33-57 | up to five turns; a normal return means settled, and one undisturbed turn is enough |
| EscrowService.Service.ReleaseFunds | backend/src/services/escrow.service.ts:43-145 | a call computes its amounts from the trip and request it reads and retries up to five times; when it returns normally its match is settled whatever the others do, and at amounts nobody prices differently its rows are those documents' deposit, payout and fee; it does return when match, carrier and sender exist and one attempt is undisturbed; a missing match is refused without a trace |
| EscrowService.NothingDone | backend/src/utils/mongoTransactions.ts:36-38 | a transaction nothing interfered with has no write conflict |
| Settlement.QuotedSettlement | backend/src/services/delivery.service.ts:43-48 | a request that stored a quote settles for exactly that quote, payout plus fee is the charge, and money moves |
| Settlement.ChargeOnlySettlement | backend/src/services/escrow.service.ts:70-73 | with only a charge stored, payout plus fee equals it if and only if the computed fee does not exceed it, which any rate up to 100 percent ensures |
| Settlement.ChargeOnlyPaysIff | backend/src/services/escrow.service.ts:70-73 | with only a charge stored the release moves money if and only if there is a deposit or the fee is less than the charge; a 100 percent fee and no deposit do not |
| Settlement.CreatedSettlesOnce | backend/src/services/matching.service.ts:358-372 | a match created from a quote, released with documents that stay as they are, quoted or not and moving money or not, is settled at most once in every run; the ledger then shows the trip's deposit given back, the stored earning paid, or what the fee leaves of the charge, and the stored fee, or the rate on the stored charge or agreed price; and it is settled once any call returned |
| Settlement.AmountsSettle | backend/src/services/escrow.service.ts:70-73 | the amounts read before the transaction make exactly those rows, and the charge taken from the sender is the stored one, or the agreed price when none is stored |
| Deliveries.PaidWasDelivered | backend/src/services/match.service.ts:375-409 | with all matches, workers and retries interleaved, behind every settlement row stands its match's whole custody chain |
| Deliveries.ReleasedIsSubmitted | backend/src/queues/payoutQueue.ts:28-40 | every payout that a custody chain lets through has a worker that was given its release |
| Deliveries.DeliveredIsPaidOnce | backend/src/queues/payoutQueue.ts:28-40 | and the carrier is paid for it by one release, at a price of this match, however often the payout job is delivered |
| SearchIndex.Cache.UpsertDocument | services/routing-search/app/indexing_service.py:297-332 | an upsert replaces one document, under the first id the payload gives, by what the patch makes of it field by field, and keeps the index coherent: an id is in a posting set exactly when its stored document lists that term or cell, and the seed set is exactly the stored ids |
| SearchIndex.UpsertCoherent | services/routing-search/app/indexing_service.py:302-306 | taking out the old document's entries and putting in the new one's restores coherence, whatever the two share |
| SearchIndex.Cache.RemoveMemberships | services/routing-search/app/indexing_service.py:159-172 | the id leaves exactly the posting sets its document lists |
| SearchIndex.Cache.AddMemberships | services/routing-search/app/indexing_service.py:175-185 | the id enters exactly the posting sets its document lists |
| SearchIndex.Cache.Replay | services/routing-search/app/indexing_service.py:216-332 | from the empty store any sequence of upserts, partial patches included, leaves the index coherent with the documents those patches make |
| SearchIndex.Cache.CandidateIds | services/routing-search/app/indexing_service.py:188-213 | retrieval over posting sets returns the scoring documents in strict order of score and id, as many as eight times the limit or 48 allow and none better left out; when nothing scores, the first ids in order up to eight times the limit or 32; and it is the very list that scanning every document gives |
| SearchIndex.Cache.SumScores | services/routing-search/app/indexing_service.py:190-206 | the four passes build exactly the table of stored documents that score, with their scores |
| SearchIndex.Cache.AddScores | services/routing-search/app/indexing_service.py:192-194 | one pass adds the weight to every id once per posting set that lists it, and to no other id |
| SearchIndex.HitsAreScore | services/routing-search/app/indexing_service.py:192-206 | in a coherent index the weighted posting hits of an id are its document's score, and zero without a document |
| SearchIndex.FallbackIff | services/routing-search/app/indexing_service.py:208-210 | the seed fallback is used exactly when every stored document scores zero |
| SearchIndex.CandidatesStored | services/routing-search/app/indexing_service.py:361-374 | no candidate id is without a stored document |
| SearchIndex.Cache.ListCandidates | services/routing-search/app/indexing_service.py:361-374 | the listing returns one stored document per candidate id, in order, none dropped, for the anchor read as a document of its own |
| SearchIndex.CountIsOverlap | services/routing-search/app/indexing_service.py:192-206 | on lists without repeats the hits counted are the size of the overlap |
| SearchIndex.ScoreIsOverlap | services/routing-search/app/indexing_service.py:192-206 | a score is two per shared term, five per origin or destination cell on the other's route, and one per shared route cell |
| SearchIndex.SortedDistinct | services/routing-search/app/indexing_service.py:141-156 | a sorted set has no repeats and the same members |
| SearchIndex.ThreeCells | services/routing-search/app/indexing_service.py:141-148 | a point has three distinct cells when cells of different resolutions differ |
| SearchIndex.SameOriginScores | services/routing-search/app/indexing_service.py:196-206 | a trip and a request with the same origin point and complete coordinates score at least 18 |
| Ranking.RankedIsSorted | services/routing-search/app/indexing_service.py:212 | the ranking is strictly ordered by descending score, then id |
| Ranking.RankingUnique | services/routing-search/app/indexing_service.py:212-213 | any list of exactly these ids in that order is the ranking, so scan order and set order do not matter |
| Ranking.CutIsBest | services/routing-search/app/indexing_service.py:210-213 | cutting the ranking keeps the best: in order, as many as the bound allows, nothing better left out |
| Ranking.LessIsCodePoints | services/routing-search/app/indexing_service.py:212 | ids compare by their first differing character, a prefix before what extends it |
| Ranking.Sort | services/routing-search/app/indexing_service.py:210-213 | sorting returns the ranking |
| SearchDocuments.MakeDoc | services/routing-search/app/indexing_service.py:216-294 | the document built is what the patch makes of the stored one, field by field: locations, terms, origin, destination and route cells |
| SearchDocuments.LocationIsPatched | services/routing-search/app/indexing_service.py:52-69 | a coordinate the patch gives wins, then its point, longitude first and latitude second, then the stored one; a city, state or place id it gives replaces the stored one and an omitted one stays |
| SearchDocuments.PointDecidesCells | services/routing-search/app/indexing_service.py:59-61 | a patch with only a GeoJSON point puts the document in exactly the three cells of latitude point[1] and longitude point[0] |
| SearchDocuments.DocIsPatched | services/routing-search/app/indexing_service.py:216-294 | the terms are exactly the blocks of both cities and place ids, and the cells exactly those of the origin, of the destination and of the interpolated points at resolutions 5, 6 and 7 |
| SearchDocuments.Tokenize | services/routing-search/app/indexing_service.py:105-116 | the terms are sorted, and a string is a term exactly when it is a maximal block of two or more letters or digits of some lower-cased part |
| SearchDocuments.RunsAreBlocks | services/routing-search/app/indexing_service.py:111-114 | one scan of a text finds exactly its maximal blocks of word characters of length two or more |
| SearchDocuments.InterpolatedPoints | services/routing-search/app/indexing_service.py:119-138 | the loop yields the evenly spaced points of the route, or none when a coordinate is missing |
| SearchDocuments.StepsAreLegs | services/routing-search/app/indexing_service.py:128-129 | one step more for every 75 kilometres, from 2 to 16 |
| SearchDocuments.EvenlySpaced | services/routing-search/app/indexing_service.py:132-136 | the points lie evenly on the straight line, each as (latitude, longitude) |
| SearchDocuments.RouteCells | services/routing-search/app/indexing_service.py:151-156 | the route cells are the sorted cells of all those points at all resolutions |
| SearchDocuments.RouteEnds | services/routing-search/app/indexing_service.py:119-138 | with four coordinates the route takes 2 to 16 steps from exactly the origin to exactly the destination, and the cells of both are route cells |
| SearchDocuments.EmptyPatchKeepsDoc | services/routing-search/app/indexing_service.py:52-69 | a patch without locations leaves locations, terms and cells of the stored document as they are |
| SearchClicks.ContextClickKeys | services/routing-search/app/maps_service.py:254-268 | the keys are the wanted context keys, each once |
| SearchClicks.ClickStore.RecordSearchSelection | services/routing-search/app/maps_service.py:595-629 | an accepted selection counts exactly once under each of its keys and a refused one nowhere: every counter stays the count over the log |
| SearchClicks.ClickStore.LoadClickSignals | services/routing-search/app/maps_service.py:386-431 | the running index over the flat reply gives every candidate its own counts |
| SearchClicks.FlatAt | services/routing-search/app/maps_service.py:401-423 | the replies of the i-th candidate sit right after those of the candidates before it |
| OutboxEvents.EventSafety | backend/src/services/outbox.service.ts:40-120 | over every run with one live relay and every failure, lost replies included: published means sent, failed means the attempts are used up, finished events have an expiry date, no event is pruned that was neither sent nor out of attempts, and sends and attempts are at most the allowance plus one per restart |
| OutboxEvents.OutboxSafety | backend/src/services/outboxRelay.service.ts:19-87 | every pattern of send, mark and release failures, crashes, restarts and pruning under the relay's hands keeps the invariant |
| OutboxEvents.PublishedForGoodIff | backend/src/services/outboxRelay.service.ts:46-70 | for a given set of ways a mark may end, published is for good in every run if and only if no applied mark can lose its reply |
| OutboxEvents.ExpiryMeansFinishedIff | backend/src/models/OutboxEvent.ts:50-53 | an expiry date means a finished event at the end of every run under exactly the same condition |
| OutboxEvents.LostMarkReplyRevives | backend/src/services/outboxRelay.service.ts:46-70 | the run that shows it: the event goes from published back to pending and still carries its expiry |
| OutboxEvents.NoneStrandedIff | backend/src/services/outboxRelay.service.ts:26-86 | in every run, crashes included, no event is left processing behind an idle relay if and only if no claim fails after the first of its batch, no applied claim or release loses its reply, and no release fails |
| OutboxEvents.AbandonStrands | backend/src/services/outbox.service.ts:44-66 | for each of those failures a run from new events that leaves one behind |
| OutboxEvents.StrandedForGood | backend/src/services/outboxRelay.service.ts:89-95 | an event left behind stays so through every continuation without a restart |
| OutboxEvents.ClaimsRunOut | backend/src/services/outbox.service.ts:43-66 | a run with no restart makes no more claims than are left, and once it has made that many nothing is pending, whenever polls are made and whatever fails |
| OutboxEvents.PruneKeeps | backend/src/models/OutboxEvent.ts:50-64 | the TTL index removes only events that were sent or are out of attempts, even one the relay holds |
| OutboxEvents.RestartKeeps | backend/src/services/outbox.service.ts:110-120 | requeueing after a restart changes only events left processing and keeps every bound |
| OutboxEvents.ClaimsBounded | backend/src/services/outbox.service.ts:43-55 | in every state a run can reach, all claims together are at most one allowance plus one per restart for each event |
| OutboxEvents.DelayGrows | backend/src/services/outbox.service.ts:94 | the backoff lies between one and thirty seconds, never shrinks with attempts, and is at its cap from the sixth on |
| OutboxEvents.DelayDoubles | backend/src/services/outbox.service.ts:94 | one second for the first attempt, doubled with each further one until the cap |
| OutboxRelay.Outbox.AppendOutboxEvent | backend/src/services/outbox.service.ts:16-38 | an appended event is pending, never claimed and never sent |
| OutboxRelay.Outbox.ClaimOutboxBatch | backend/src/services/outbox.service.ts:40-68 | a batch has no repeats, is oldest first, leaves no older available event behind, stops short only when nothing is available, and marks exactly its own events as processing with one more attempt; when a claim throws, what was claimed before, and it if it was applied, stays processing |
| OutboxRelay.Outbox.ClaimNext | backend/src/services/outbox.service.ts:45-56 | one claim takes an oldest available event, or there is none |
| OutboxRelay.Outbox.MarkOutboxEventPublished | backend/src/services/outbox.service.ts:71-82 | marks one event published with its expiry and changes no other |
| OutboxRelay.Outbox.ReleaseOutboxEvent | backend/src/services/outbox.service.ts:85-108 | an exhausted event fails with its expiry, any other is due again after its backoff; a pruned one is left alone |
| OutboxRelay.Outbox.RequeueProcessingOutboxEvents | backend/src/services/outbox.service.ts:110-120 | requeues every processing event and no other, as the restart step does |
| OutboxRelay.Outbox.PublishOne | backend/src/services/outboxRelay.service.ts:29-82 | handling one event, with its send, mark and release each free to fail or to lose its reply, is exactly that run of the step model; the event is left processing only when its release throws |
| OutboxRelay.Outbox.FlushOutboxBatch | backend/src/services/outboxRelay.service.ts:19-87 | a poll claims something whenever something is due and its first claim works, keeps the invariant, and leaves nothing processing when releases succeed and no later claim fails |
| OutboxRelay.Outbox.RunUntilFinished | backend/src/services/outboxRelay.service.ts:89-100 | liveness: with every claim and release succeeding and no further restart, polling at later and later times finishes every event within the claims the events have left, whatever sends and marks do |
| OutboxRelay.Outbox.PollAll | backend/src/services/outboxRelay.service.ts:97-99 | polls at any times, failing in any way: no more of them find an event due than there are claims left, and once that many have, nothing is pending |
| OutboxRelay.Outbox.StartOutboxRelay | backend/src/services/outboxRelay.service.ts:89-100 | from whatever state a crash or an abandoned flush left, starting the relay requeues and then, claims and releases succeeding, finishes every event within the bound |
| Custody.PayoutHasChain | backend/src/services/match.service.ts:257-415 | every payout is preceded by delivery code accepted from the sender, that code generated by a call that saw the parcel in custody, pickup code accepted from the sender, and that code generated by a call that saw the request paid, in this order, under every interleaving |
| Custody.RunKeeps | backend/src/services/match.service.ts:257-415 | every event logged in a run follows from an earlier one, whatever other services write to status and payment |
| Custody.PayoutKeeps | backend/src/queues/payoutQueue.ts:15-40 | a payout job exists only after a delivery code was accepted, however often it is redelivered |
| Custody.VerifyPickupKeeps | backend/src/services/match.service.ts:300-335 | each of the five awaits of the pickup check, on whatever the other calls have left, keeps every logged event justified and every stored code accounted for |
| Custody.VerifyDeliveryKeeps | backend/src/services/match.service.ts:365-409 | each of the five awaits of the delivery check, on whatever the other calls have left, keeps every logged event justified and every stored code accounted for |
| Custody.GenerateDeliveryKeeps | backend/src/services/match.service.ts:337-363 | a delivery code generated on a status read earlier is still justified when it is stored |
| Custody.GeneratePickupKeeps | backend/src/services/match.service.ts:257-298 | a pickup code generated on a payment status read earlier is still justified when it is stored |
| MatchService.WholeCallIsRun | backend/src/services/match.service.ts:257-415 | a call whose awaits follow one another is a run of the interleaved model, and a reachable state leads to a reachable one |
| MatchService.VerifyPickupWhole | backend/src/services/match.service.ts:300-335 | the five awaits of checking a pickup code amount to a refusal, to one counted attempt, or to a consumed code and a parcel in transit |
| MatchService.VerifyDeliveryWhole | backend/src/services/match.service.ts:365-409 | the five awaits of checking a delivery code amount to a refusal, to one counted attempt, or to a delivered parcel and one queued payout job |
| MatchService.MatchDoc.UpdateMatchStatus | backend/src/services/match.service.ts:40-75 | status, timeline and the request's mapped status move together |
| MatchService.MatchDoc.Stop | backend/src/services/match.service.ts:166-181 | rejecting or disputing is the run of one outside status step; the request becomes cancelled, or pending for a dispute |
| MatchService.MatchDoc.GeneratePickupOtp | backend/src/services/match.service.ts:257-298 | is the uninterrupted run of the interleaved model from a reachable state, succeeds exactly for the carrier of a paid request, and leaves match and request in agreement |
| MatchService.MatchDoc.VerifyPickupOtp | backend/src/services/match.service.ts:300-335 | is that run; succeeds exactly for the sender with the stored code and attempts left; consumes the code and puts match, request and trip in transit; a failure changes no status |
| MatchService.MatchDoc.GenerateDeliveryOtp | backend/src/services/match.service.ts:337-363 | is that run; succeeds exactly for the carrier with the parcel in custody |
| MatchService.MatchDoc.VerifyDeliveryOtp | backend/src/services/match.service.ts:365-409 | is that run; succeeds exactly for the sender with the stored code and attempts left; delivers, queues exactly one payout job, and completes the trip exactly when none of its other matches is open |
| MatchService.MatchDoc.RunPayoutJob | backend/src/queues/payoutQueue.ts:15-40 | a queued job releases exactly when the match is not disputed, and what it releases has the whole custody chain behind it |
| Otp.CodeIsBounded | backend/src/services/otp.service.ts:26-54 | over any sequence of waits and attempts a code is compared at most three times, accepted at most once, gone once accepted, and gone 2400 seconds after generation |
| Otp.AcceptedIff | backend/src/services/otp.service.ts:26-54 | after any history a try is accepted if and only if its input is the generated code, the entry has not expired and fewer than three tries were compared before; it then removes the entry, and a wrong one is counted and renews it |
| Otp.RightCodeAccepted | backend/src/services/otp.service.ts:9-24 | a fresh code can be tried for exactly ten minutes, and the right one is accepted |
| Otp.NearlyFortyMinutes | backend/src/services/otp.service.ts:37-45 | because each attempt renews the time to live, a code can still be stored after 2396 seconds |
| Otp.OtpStore.VerifyOtp | backend/src/services/otp.service.ts:26-54 | exactly when each verdict is given, in terms of the stored entry: missing or expired, exhausted, right and wrong with the tries left; and the entry after each; other keys are untouched |
| Otp.OtpStore.GenerateOtp | backend/src/services/otp.service.ts:9-24 | stores a fresh entry with no attempts for ten minutes |
| LeaseLock.AtMostOneAccept | backend/src/services/match.service.ts:134-163 | over every interleaving two unexpired leases are one caller's, and accepts number at most one when each accepting write is made within its lease |
| LeaseLock.AcceptsOnceIff | backend/src/utils/distributedLock.ts:4 | with sections of up to a given length, every run accepts at most once if and only if that length is under the ten-second lease |
| LeaseLock.OverrunAcceptsTwice | backend/src/services/match.service.ts:136-149 | the run that shows it: two callers accept the same proposal |
| LeaseLock.MutualExclusion | backend/src/utils/distributedLock.ts:10-18 | two holders of unexpired leases on a key are the same holder |
| LeaseLock.LateReleaseHarmless | backend/src/utils/distributedLock.ts:24-37 | a late releaser removes nothing once another caller holds the key |
| LeaseLock.LeaseSafety | backend/src/utils/distributedLock.ts:10-60 | both invariants hold along every run, through crashes and outside status writes |
| LeaseLock.AcceptService.AcquireLock | backend/src/utils/distributedLock.ts:10-18 | the key is taken with a new token exactly when it is free or expired |
| LeaseLock.AcceptService.ReleaseLock | backend/src/utils/distributedLock.ts:24-37 | only a live entry with the caller's own token is removed |
| LeaseLock.AcceptService.CarrierAccept | backend/src/services/match.service.ts:134-149 | the five outcomes, exactly when each happens, and the key free afterwards however the section ends |
| Payments.OneHold | backend/src/services/payment.service.ts:319-346 | any sequence of confirmations, payments and orders leaves at most one hold, exactly one once both have succeeded, and never changes it |
| Payments.ChargeHeldIff | backend/src/services/payment.service.ts:341-345 | whatever is done with a fresh request, what is held is its charge if and only if it has one |
| Payments.StoredChargeHeld | backend/src/services/delivery.service.ts:43-48 | a charge stored at creation is never changed and is what is held, whichever order is paid and whenever |
| Payments.OrderedChargeHeld | backend/src/services/payment.service.ts:270-281 | a request without one that is ordered before it is paid holds the charge it was ordered for |
| Payments.OrdersAgree | backend/src/services/match.service.ts:193-215 | confirm then pay and pay then confirm end in the same hold, payment and orders |
| PaymentOrders.OwnOrdersIff | backend/src/services/payment.service.ts:315-335 | over all requests of a sender, an order pays for at most one of them in every run if and only if requests are paid with their own orders; and the same for what is held being what was paid |
| PaymentOrders.OneOrderPaysTwice | backend/src/services/payment.service.ts:319-335 | the input that shows it: one order of one rupee pays for two requests, and five hundred are held for the second |
| PaymentRaces.HeldOnceIff | backend/src/services/payment.service.ts:297-346 | with any number of confirmations and payments interleaved at every await, exactly one hold is there once both kinds have succeeded, in every run, if and only if no two calls of any kind overlap and none ends halfway |
| PaymentRaces.SerialRun | backend/src/services/match.service.ts:183-215 | when no call starts beside another and none ends halfway, every await finds what the call has read still true |
| PaymentRaces.SomeRunGoesWrong | backend/src/services/match.service.ts:197-215 | for each kind of overlap, and for a call that ends halfway, a run from a fresh request that ends with no hold or with two |
| PaymentRaces.WholeConfirm | backend/src/services/match.service.ts:183-215 | the awaits of a confirmation with nothing between them are the sequential confirmation |
| PaymentRaces.WholePay | backend/src/services/payment.service.ts:297-346 | the awaits of a payment with nothing between them are the sequential payment |
| Payments.PaymentDesk.CreateDeliveryOrder | backend/src/services/payment.service.ts:253-295 | an ordered request keeps its order and charge; otherwise the order is made for the stored charge, or the weight's when there is none, and both are set |
| Payments.PaymentDesk.SenderConfirm | backend/src/services/match.service.ts:183-215 | succeeds exactly on an accepted match; a paid request becomes active and an unpaid one confirmed; and the charge, or the agreed price when there is none, is held only when paid and not held yet |
| Payments.PaymentDesk.ConfirmDeliveryPayment | backend/src/services/payment.service.ts:297-346 | succeeds exactly with a good signature and a paid request or a known order; marks the order completed and the request paid; and holds the charge, or the order's amount when there is none, only when confirmed and not held yet |
| Matching.CascadeEnds | services/matching-orchestrator/src/server.ts:38-84 | however searches answer, the queue is empty after at most twice the missing pairs plus the queued events |
| Matching.ProcessAnswers | services/matching-orchestrator/src/server.ts:38-84 | a live delivery request made, changed or paid gets a match with each eligible trip among the first five retrieved, an active trip with paid deposit posted or changed gets one with each eligible request retrieved, no other pair is matched, and any other event changes nothing |
| Matching.ProcessDecreases | backend/src/services/matching.service.ts:264-283 | every processed event strictly decreases that measure, since a new event is queued only with a new match |
| Matching.NeverMoreThanPairs | backend/src/models/Match.ts:146 | there are never more matches than pairs of trip and request |
| Matching.ProposeKeeps | backend/src/services/matching.service.ts:350-398 | a proposal keeps: one match per pair, by the unique index; carrier never sender, by the callers' filters; each trip's set exactly the matches naming it; and it leaves an eligible pair matched |
| Matching.MatchingService.CreateMatchProposal | backend/src/services/matching.service.ts:350-398 | creates the match, or after a duplicate key returns the one that is there |
| Matching.MatchingService.InsertProposal | backend/src/services/matching.service.ts:358-380 | the transaction inserts the match, adds it to its trip, marks its request matched and queues one delivery update; or it is refused by the unique index exactly when the pair has a match and then writes nothing |
| Matching.MatchingService.ProposeEach | backend/src/services/matching.service.ts:464-503 | the loop proposes each pair in order and passes over those whose carrier is the sender |
| Matching.MatchingService.Drain | services/matching-orchestrator/src/server.ts:38-84 | consuming events in order until none is left takes no more events than the measure, and at the end every event consumed has a match for each eligible pair it asked about |
| Matching.ReorderKeepsIds | backend/src/services/matching.service.ts:106-117 | reordering by a search ranking neither loses nor invents a trip |
| Matching.ReorderPermutesIff | backend/src/services/matching.service.ts:110-117 | it is a permutation exactly when the ranking names none of the trips twice |
| Matching.RankedInOrder | backend/src/services/matching.service.ts:110-117 | of two trips the one ranked earlier comes earlier |
| Matching.RankedFirst | backend/src/services/matching.service.ts:114-117 | a ranked trip comes before one that is not |
| Matching.UnrankedInOrder | backend/src/services/matching.service.ts:114-117 | trips that are not ranked keep their order |
| Pricing.QuoteAddsUp | backend/src/utils/pricing.ts:83-125 | the breakdown sums to the earning, the earning is at least both minimums and equals the larger when topped up, and the fee is the rate to within half a paisa |
| Pricing.QuoteMonotone | backend/src/utils/pricing.ts:83-100 | earning, fee and total never fall when weight or price per kilo rises, through every rounding |
| Pricing.RawMonotone | backend/src/utils/pricing.ts:88-93 | the earning before the minimum grows at least as fast as the base price |
| Pricing.BaseIsProduct | backend/src/utils/pricing.ts:85-87 | the base price is price times weight to the nearest paisa |
| Pricing.PriceAndWeight | backend/src/utils/pricing.ts:85-86 | at least one rupee a kilo, for at least a hundred grams |
| Pricing.HandlingIsShare | backend/src/utils/pricing.ts:7-15 | category and fragility add their percentage of the base price to the nearest paisa |
| Pricing.UrgencyIsShare | backend/src/utils/pricing.ts:31-50 | a delivery window adds 20, 12 or 6 percent of the base price to the nearest paisa when it is at most 8, 24 or 48 hours long, and nothing beyond |
| Pricing.TighterCostsMore | backend/src/utils/pricing.ts:31-50 | a tighter window never costs less, and none costs least |
| Pricing.ReliabilityIsShare | backend/src/utils/pricing.ts:52-64 | a carrier's record earns five or three percent of the base price, or nothing |
| Pricing.ValueIsShare | backend/src/utils/pricing.ts:66-74 | the declared value above five thousand rupees costs 0.6 or 0.4 percent, up to 750 rupees |
| Pricing.MinimumByCategory | backend/src/utils/pricing.ts:17-25 | what a parcel of each category earns at least |
| Pricing.TopUpIsMinimum | backend/src/utils/pricing.ts:94-96 | an earning that was topped up is its category's minimum or forty-five rupees a kilo |
| Pricing.DepositBounds | backend/src/utils/pricing.ts:76-81 | the safety deposit stays between the default and the cap and never falls with the declared value |
| Pricing.DepositIsTenth | backend/src/utils/pricing.ts:76-81 | the deposit is a tenth of the declared value to the nearest paisa, the default or the cap, and which of them when |
| RateTiers.ProjectTier | backend/src/services/pricing.service.ts:84-144 | a projection carries the greedy selection, or one stand-in parcel of the first category and the utilization's share of the capacity to the nearest hundred grams; it charges payout plus fee, and gives its weight to one decimal and its payout per kilo to the nearest paisa |
| RateTiers.GreedyFill | backend/src/services/pricing.service.ts:98-104 | the fill never exceeds the capacity, and no request it passed over fits in what is left |
| RateTiers.TierRatesOrdered | backend/src/services/pricing.service.ts:241-278 | fast, balanced and premium rates are in order after rounding and clamping |
| RateTiers.RatesAreNearest | backend/src/services/pricing.service.ts:29-46 | the recommended rate is the market rate to the nearest ten rupees from 30 to 500, and the other tiers are 90 and 118 percent of it to the nearest ten |
| RateTiers.FastNeverPaysMore | backend/src/services/pricing.service.ts:246-266 | over the same parcels the payouts are in the order of the rates |
| RateTiers.PremiumOrderedIff | backend/src/services/pricing.service.ts:241-278 | the premium payout is at least the balanced one at every market rate if and only if a request is pending or the premium stand-in is not the lighter one |
| RateTiers.PremiumCanPayLess | backend/src/services/pricing.service.ts:243-278 | with nothing pending, the 60 and 45 percent fallbacks break that order for ten kilos |

## Left out

- EscrowRuns: the fallback without a replica set runs the body with no transaction and gives no such promise; only the session path is modelled. Trips, requests and users are never deleted in the middle of a run.
- EscrowRuns.ExactlyOncePayout: for a match whose prices in the run are kept apart, which is the exact condition (`OnceIffKeptApart`) and holds of every created match at fixed amounts; a user's own id on both sides of a match is allowed.
- EscrowRuns.BooksAccount: for stores in which no match has its carrier as its sender, which the proposal step keeps (`Matching.ProposeKeeps`).
- EscrowRuns.MoneyConserved: for covered releases; cancellations refund without a hold and a trip's deposit is released per match, so cover is not an invariant of the repository. Refunds and other wallet writers appear only as increments.
- EscrowService.Service.ReleaseFunds: back-off delays are not modelled; each attempt's surroundings and the documents read are parameters.
- SearchIndex: one writer at a time, as each upsert pipeline is; two upserts of the same id that interleave are not covered. Different kinds, terms and cells are taken to have different keys, and a stored document that does not decode is not modelled.
- SearchDocuments.MakeDoc: package, capacity, window and the other document fields, the location index, and lower-casing outside ASCII; the end point of a route is exact because floats are reals.
- SearchIndex.SameOriginScores: needs that cells of different resolutions differ, which is all that is assumed of H3.
- SearchClicks: time to live of counters and text normalisation; keys are structured values here and strings joined with `:` in the source, so an actor or field that contains `:` can share a counter there and not here; the ranking heuristics, the suggestion deduplication and the distance formula have no crisp statement.
- OutboxEvents: two live relays. A restart requeues what another live relay has in hand, and no bound survives that.
- OutboxRelay.Outbox.RunUntilFinished: nothing is appended meanwhile, claims and releases succeed, and the clock is taken to reach the next due time; what other polls do is in `PollAll`.
- Deliveries: a payout job that passes its check calls `releaseFunds` at once; a job that dies in between is delivered again.
- Custody: the role checks read fields that never change and are part of the first step of a call. Ratings, notifications and the SLA audit's re-opening are left out; the audit is one of the outside status writes.
- Otp.CodeIsBounded: for attempts made one after another; concurrent attempts can read the same counter. `Custody` covers their interleaving but not the bound.
- LeaseLock: the release is atomic and tokens never repeat; a failed release is the same as none, and the caller's step order is the code's.
- Payments: a request with one match; refunds and the webhook are left out. A `holdFunds` that fails ends its call halfway in `PaymentRaces`; one that holds twice is the subject of `EscrowRuns`.
- PaymentOrders: payments of one sender's requests made one after another; the provider never makes an id twice. Another sender's order is not found.
- Matching.MatchingService.CreateMatchProposal: each proposal is one committed transaction under the unique index, with retries unseen; retrieval and scoring are parameters; the variant without transactions is left out, and so is the event no consumer listens to. A search failure or a redelivered Kafka message is a further event.
- Matching.CascadeEnds: for a fixed set of trips and requests; a trigger that throws is retried by its consumer and is not a step of the model.
- Pricing: floating-point rounding error; the Python estimate of a quote is a separate heuristic.
- RateTiers: how demand and competition set the market rate.
- Luggage capacity: accepting a match takes nothing from a trip's capacity, so there is no invariant to prove.
- The payment reconciler, authentication, sockets, logging, metrics and start-up code.
