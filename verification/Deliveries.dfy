/**
 Custody and escrow together: a payout job that passes its check in a match's
 custody chain is what submits the release of that match's escrow, and nothing
 else does. Steps of all matches and all workers interleave.
 */
module Deliveries {
  import opened Common
  import Custody
  import EscrowRuns
  import opened EscrowStore

  datatype Sys = Sys(custody: seq<Custody.Sys>, escrow: EscrowRuns.Sys)

  datatype Step =
    | OnMatch(m: MatchId, step: Custody.Step)
    | OnEscrow(move: EscrowRuns.Step)

  /** The step of a match logs a payout: a worker calls `releaseFunds`. */
  predicate LogsPayout(before: Custody.Sys, after: Custody.Sys) {
    after.shared.log == before.shared.log + [Custody.PayoutReleased]
  }

  /** What the step does to the escrow; releases are submitted by matches only. */
  function EscrowMoves(s: Sys, st: Step): seq<EscrowRuns.Step> {
    match st
    case OnMatch(m, step) =>
      if m < |s.custody| && LogsPayout(s.custody[m], Custody.Next(s.custody[m], step)) then [EscrowRuns.Submit(Release(m))] else []
    case OnEscrow(move) => if move.Submit? && move.job.Release? then [] else [move]
  }

  function Next(s: Sys, st: Step): Sys {
    Sys(if st.OnMatch? && st.m < |s.custody| then s.custody[st.m := Custody.Next(s.custody[st.m], st.step)] else s.custody,
        EscrowRuns.Exec(s.escrow, EscrowMoves(s, st)))
  }

  function Exec(s: Sys, run: seq<Step>): Sys
    decreases |run|
  {
    if run == [] then s else Exec(Next(s, run[0]), run[1..])
  }

  predicate Init(s: Sys) {
    EscrowRuns.Init(s.escrow) && forall m :: 0 <= m < |s.custody| ==> Custody.Init(s.custody[m])
  }

  /** The escrow's own part of a run. */
  function EscrowPart(s: Sys, run: seq<Step>): seq<EscrowRuns.Step>
    decreases |run|
  {
    if run == [] then [] else EscrowMoves(s, run[0]) + EscrowPart(Next(s, run[0]), run[1..])
  }

  lemma {:induction false} EscrowIsRun(s: Sys, run: seq<Step>)
    ensures Exec(s, run).escrow == EscrowRuns.Exec(s.escrow, EscrowPart(s, run))
    decreases |run|
  {
    if run != [] {
      EscrowIsRun(Next(s, run[0]), run[1..]);
      EscrowRuns.ExecConcat(s.escrow, EscrowMoves(s, run[0]), EscrowPart(Next(s, run[0]), run[1..]));
    }
  }

  // ---------------------------------------------------------------- no release without its payout event

  /** Some worker has been given a release of the match. */
  ghost predicate Submitted(e: EscrowRuns.Sys, m: MatchId) {
    exists i :: 0 <= i < |e.workers| && e.workers[i].job == Release(m)
  }

  lemma SubmittedStays(e: EscrowRuns.Sys, move: EscrowRuns.Step, m: MatchId)
    ensures Submitted(e, m) || move == EscrowRuns.Submit(Release(m)) ==> Submitted(EscrowRuns.Next(e, move), m)
  {
    var after := EscrowRuns.Next(e, move);
    if Submitted(e, m) {
      var i :| 0 <= i < |e.workers| && e.workers[i].job == Release(m);
      assert after.workers[i].job == Release(m);
    } else if move == EscrowRuns.Submit(Release(m)) {
      assert after.workers[|e.workers|].job == Release(m);
    }
  }

  /** A release of the match is queued, open, in doubt or has been settled. */
  ghost predicate Mentions(e: EscrowRuns.Sys, m: MatchId) {
    || (exists i :: 0 <= i < |e.workers| && e.workers[i].job == Release(m))
    || (exists i :: 0 <= i < |e.inDoubt| && e.inDoubt[i].job == Release(m))
    || Settlement(e.db.ledger, m) != []
  }

  lemma LedgerStays(e: EscrowRuns.Sys, move: EscrowRuns.Step)
    requires EscrowRuns.Committed(e, move) == None
    ensures EscrowRuns.Next(e, move).db.ledger == e.db.ledger
  {
  }

  /** Only a committed release of the match adds to its settlement. */
  lemma SettlementStep(e: EscrowRuns.Sys, move: EscrowRuns.Step, m: MatchId)
    requires EscrowRuns.DocsInv(e) && Settlement(EscrowRuns.Next(e, move).db.ledger, m) != Settlement(e.db.ledger, m)
    ensures Mentions(e, m)
  {
    var t := EscrowRuns.Committed(e, move);
    if t.Some? {
      EscrowRuns.CommittedBegun(e, move);
      if t.value.job.Hold? {
        HoldCommit(e.db, t.value);
      } else if HasPayout(t.value.snap.ledger, t.value.job.m) {
        IdleCommit(e.db, t.value);
      } else {
        ReleaseLedger(e.db, t.value);
        assert t.value.job == Release(m);
      }
    } else {
      LedgerStays(e, move);
    }
  }

  lemma JobStays(e: EscrowRuns.Sys, move: EscrowRuns.Step, i: nat)
    requires i < |EscrowRuns.Next(e, move).workers|
    ensures (i < |e.workers| && EscrowRuns.Next(e, move).workers[i].job == e.workers[i].job)
            || move == EscrowRuns.Submit(EscrowRuns.Next(e, move).workers[i].job)
  {
  }

  /** A release is mentioned only after it was submitted. */
  lemma MentionsStep(e: EscrowRuns.Sys, move: EscrowRuns.Step, m: MatchId)
    requires EscrowRuns.DocsInv(e) && Mentions(EscrowRuns.Next(e, move), m) && move != EscrowRuns.Submit(Release(m))
    ensures Mentions(e, m)
  {
    var after := EscrowRuns.Next(e, move);
    if i :| 0 <= i < |after.workers| && after.workers[i].job == Release(m) {
      JobStays(e, move, i);
    } else if i :| 0 <= i < |after.inDoubt| && after.inDoubt[i].job == Release(m) {
      EscrowRuns.DoubtStep(e, move, i);
    } else if Settlement(e.db.ledger, m) == [] {
      SettlementStep(e, move, m);
    }
  }

  ghost predicate Inv(s: Sys) {
    && EscrowRuns.DocsInv(s.escrow)
    && (forall m :: 0 <= m < |s.custody| ==> Custody.Inv(s.custody[m]))
    && (forall m: MatchId :: Mentions(s.escrow, m) ==> m < |s.custody| && Custody.PayoutReleased in s.custody[m].shared.log)
    && (forall m: MatchId :: m < |s.custody| && Custody.PayoutReleased in s.custody[m].shared.log ==> Submitted(s.escrow, m))
  }

  lemma InitInv(s: Sys)
    requires Init(s)
    ensures Inv(s)
  {
    EscrowRuns.InitDocs(s.escrow);
  }

  /** A match's log only grows, and by one event at most. */
  lemma LogGrows(c: Custody.Sys, step: Custody.Step)
    requires Custody.Inv(c)
    ensures var log, after := c.shared.log, Custody.Next(c, step).shared.log;
            after == log || (|after| == |log| + 1 && after == log + [after[|log|]])
  {
    if step.Advance? && step.c < |c.calls| {
      Custody.ProgressKeeps(c.shared, step.c, c.calls[step.c], step.code);
    }
  }

  lemma OneMove(s: EscrowRuns.Sys, move: EscrowRuns.Step)
    ensures EscrowRuns.Exec(s, [move]) == EscrowRuns.Next(s, move)
  {
    assert [move][1..] == [];
  }

  lemma StepKeeps(s: Sys, st: Step)
    requires Inv(s)
    ensures Inv(Next(s, st))
  {
    var after, moves := Next(s, st), EscrowMoves(s, st);
    if moves != [] {
      OneMove(s.escrow, moves[0]);
      EscrowRuns.DocsStep(s.escrow, moves[0]);
    }
    if st.OnMatch? && st.m < |s.custody| {
      Custody.NextKeeps(s.custody[st.m], st.step);
      LogGrows(s.custody[st.m], st.step);
    }
    forall m: MatchId | Mentions(after.escrow, m)
      ensures m < |after.custody| && Custody.PayoutReleased in after.custody[m].shared.log
    {
      if moves != [] && moves[0] != EscrowRuns.Submit(Release(m)) { MentionsStep(s.escrow, moves[0], m); }
    }
    forall m: MatchId | m < |after.custody| && Custody.PayoutReleased in after.custody[m].shared.log
      ensures Submitted(after.escrow, m)
    {
      if moves != [] { SubmittedStays(s.escrow, moves[0], m); }
    }
  }

  lemma {:induction false} RunKeeps(s: Sys, run: seq<Step>)
    requires Inv(s)
    ensures Inv(Exec(s, run))
    decreases |run|
  {
    if run != [] {
      StepKeeps(s, run[0]);
      RunKeeps(Next(s, run[0]), run[1..]);
    }
  }

  /**
   Behind every settlement row of the ledger stands the whole custody chain of
   its match, however matches, workers and retries interleave.
   */
  lemma PaidWasDelivered(s0: Sys, run: seq<Step>, m: MatchId)
    requires Init(s0) && Settlement(Exec(s0, run).escrow.db.ledger, m) != []
    ensures m < |Exec(s0, run).custody|
    ensures exists p: nat :: Custody.HasChain(Exec(s0, run).custody[m].shared.log, p)
  {
    InitInv(s0);
    RunKeeps(s0, run);
    var s := Exec(s0, run);
    assert Mentions(s.escrow, m);
    var log := s.custody[m].shared.log;
    var p: nat :| p < |log| && log[p] == Custody.PayoutReleased;
    Custody.JustifiedChain(log, p);
  }

  lemma {:induction false} CustodyStays(s: Sys, run: seq<Step>)
    ensures |Exec(s, run).custody| == |s.custody|
    decreases |run|
  {
    if run != [] {
      CustodyStays(Next(s, run[0]), run[1..]);
    }
  }

  /** And whatever a custody chain lets go has a worker to release it. */
  lemma ReleasedIsSubmitted(s0: Sys, run: seq<Step>, m: MatchId)
    requires Init(s0) && m < |s0.custody|
    ensures m < |Exec(s0, run).custody|
    ensures Custody.PayoutReleased in Exec(s0, run).custody[m].shared.log ==> Submitted(Exec(s0, run).escrow, m)
  {
    InitInv(s0);
    RunKeeps(s0, run);
    CustodyStays(s0, run);
  }

  /** And the carrier is paid for it once, at a price of this match. */
  lemma DeliveredIsPaidOnce(s0: Sys, run: seq<Step>, m: MatchId)
    requires Init(s0) && m < |s0.escrow.db.matches|
    requires EscrowRuns.KeptApart(EscrowRuns.PricesOf(s0.escrow, EscrowPart(s0, run), m), s0.escrow.db.matches[m].payout)
    ensures var s, doc := Exec(s0, run), s0.escrow.db.matches[m];
            Settlement(s.escrow.db.ledger, m) == [] ||
            (exists a: Amounts, p: nat ::
               && (m, a) in EscrowRuns.Prices(s0.escrow, EscrowPart(s0, run))
               && Settlement(s.escrow.db.ledger, m) == SettlementRows(doc.carrier, doc.sender, m, a)
               && m < |s.custody| && Custody.HasChain(s.custody[m].shared.log, p))
  {
    EscrowIsRun(s0, run);
    EscrowRuns.ExactlyOncePayout(s0.escrow, EscrowPart(s0, run), m);
    if Settlement(Exec(s0, run).escrow.db.ledger, m) != [] { PaidWasDelivered(s0, run, m); }
  }
}
