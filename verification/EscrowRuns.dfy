/**
 Whole runs of payout and hold jobs. Any number of workers take steps in any
 order: they read, open a transaction on a snapshot, and try to commit it. A
 commit whose result is unknown is retried by its worker while the transaction
 itself stays in doubt and may still reach the store later, or never.
 */
module EscrowRuns {
  import opened Common
  import opened EscrowStore

  const MAX_RETRIES := 5

  datatype Pc =
    | Queued
    | Checked
    | Ready(amounts: Amounts, attempt: nat)
    | InTxn(attempt: nat, t: Txn)
    | Returned
    | Threw

  datatype Worker = Worker(job: Job, pc: Pc)

  datatype Sys = Sys(db: Db, workers: seq<Worker>, inDoubt: seq<Txn>)

  datatype Step =
    | Submit(job: Job)
    | Check(w: nat) // find the match; the idempotency check outside the transaction
    | Price(w: nat, m: MatchId, quote: Option<Amounts>) // read the match's trip and request, or find one missing
    | Begin(w: nat) // take a snapshot and run the body on it
    | Ack(w: nat) // the commit is tried and its result is known
    | Abort(w: nat) // write conflict or other transient error before the commit
    | Unknown(w: nat) // the commit's result is unknown
    | Fail(w: nat) // any other error, or the process dies
    | Land(i: nat) // an in-doubt commit reaches the store
    | Drop(i: nat) // an in-doubt commit never will
    | TouchUser(u: UserId) // another service saves the user document
    | TouchMatch(m: MatchId) // another service saves the match document
    | Inc(u: UserId, balance: int, escrow: int) // another service's atomic wallet increment

  const NO_AMOUNTS := Amounts(0, 0, 0, 0)

  function SetPc(s: Sys, w: nat, pc: Pc): Sys
    requires w < |s.workers|
  {
    s.(workers := s.workers[w := s.workers[w].(pc := pc)])
  }

  /** After a transient failure: another attempt, or give up. */
  function AfterTransient(a: Amounts, attempt: nat): Pc {
    if attempt < MAX_RETRIES then Ready(a, attempt + 1) else Threw
  }

  function Remove(ts: seq<Txn>, i: nat): seq<Txn>
    requires i < |ts|
  {
    ts[..i] + ts[i + 1..]
  }

  function IncUser(db: Db, u: UserId, balance: int, escrow: int): Db {
    if u < |db.users| then
      var x := db.users[u];
      db.(users := db.users[u := User(x.balance + balance, x.escrow + escrow, x.version + 1)])
    else db
  }

  function CheckStep(s: Sys, w: nat): Sys
    requires w < |s.workers|
  {
    match s.workers[w].job
    case Release(m) =>
      if m >= |s.db.matches| then SetPc(s, w, Threw)
      else if HasPayout(s.db.ledger, m) then SetPc(s, w, Returned)
      else SetPc(s, w, Checked)
    case Hold(_, m, _) =>
      SetPc(s, w, if m >= |s.db.matches| then Threw else Ready(NO_AMOUNTS, 1))
  }

  /** One step; a step that is not enabled changes nothing. */
  function Next(s: Sys, st: Step): Sys {
    match st
    case Submit(job) => s.(workers := s.workers + [Worker(job, Queued)])
    case Check(w) =>
      if w < |s.workers| && s.workers[w].pc == Queued then CheckStep(s, w) else s
    case Price(w, m, quote) =>
      if w < |s.workers| && s.workers[w] == Worker(Release(m), Checked) then
        SetPc(s, w, if quote.Some? then Ready(quote.value, 1) else Threw)
      else s
    case Begin(w) =>
      if w < |s.workers| && s.workers[w].pc.Ready? then
        var job, pc := s.workers[w].job, s.workers[w].pc;
        if BodyThrows(s.db, job) then SetPc(s, w, Threw)
        else SetPc(s, w, InTxn(pc.attempt, Body(s.db, job, pc.amounts)))
      else s
    case Ack(w) =>
      if w < |s.workers| && s.workers[w].pc.InTxn? then
        var pc := s.workers[w].pc;
        if NoConflict(s.db, pc.t) then SetPc(s.(db := Commit(s.db, pc.t)), w, Returned)
        else SetPc(s, w, AfterTransient(pc.t.amounts, pc.attempt))
      else s
    case Abort(w) =>
      if w < |s.workers| && s.workers[w].pc.InTxn? then
        SetPc(s, w, AfterTransient(s.workers[w].pc.t.amounts, s.workers[w].pc.attempt))
      else s
    case Unknown(w) =>
      if w < |s.workers| && s.workers[w].pc.InTxn? then
        var pc := s.workers[w].pc;
        SetPc(s.(inDoubt := s.inDoubt + [pc.t]), w, AfterTransient(pc.t.amounts, pc.attempt))
      else s
    case Fail(w) =>
      if w < |s.workers| && !s.workers[w].pc.Returned? then SetPc(s, w, Threw) else s
    case Land(i) =>
      if i < |s.inDoubt| then
        var t := s.inDoubt[i];
        Sys(if NoConflict(s.db, t) then Commit(s.db, t) else s.db, s.workers, Remove(s.inDoubt, i))
      else s
    case Drop(i) =>
      if i < |s.inDoubt| then s.(inDoubt := Remove(s.inDoubt, i)) else s
    case TouchUser(u) => s.(db := IncUser(s.db, u, 0, 0))
    case TouchMatch(m) =>
      if m < |s.db.matches| then
        s.(db := s.db.(matches := s.db.matches[m := s.db.matches[m].(version := s.db.matches[m].version + 1)]))
      else s
    case Inc(u, balance, escrow) => s.(db := IncUser(s.db, u, balance, escrow))
  }

  function Exec(s: Sys, run: seq<Step>): Sys
    decreases |run|
  {
    if run == [] then s else Exec(Next(s, run[0]), run[1..])
  }

  // ---------------------------------------------------------------- documents, in every run

  /** Every begun transaction, in hand or in doubt, is its body on a snapshot whose documents have only evolved. */
  ghost predicate DocsInv(s: Sys) {
    && (forall w :: 0 <= w < |s.workers| && s.workers[w].pc.InTxn? ==>
          Begun(s.db, s.workers[w].pc.t) && s.workers[w].pc.t.job == s.workers[w].job)
    && (forall i :: 0 <= i < |s.inDoubt| ==> Begun(s.db, s.inDoubt[i]))
  }

  /** The transaction the step commits, if it commits one. */
  function Committed(s: Sys, st: Step): Option<Txn> {
    if st.Ack? && st.w < |s.workers| && s.workers[st.w].pc.InTxn? && NoConflict(s.db, s.workers[st.w].pc.t) then
      Some(s.workers[st.w].pc.t)
    else if st.Land? && st.i < |s.inDoubt| && NoConflict(s.db, s.inDoubt[st.i]) then Some(s.inDoubt[st.i])
    else None
  }

  lemma DbStep(s: Sys, st: Step)
    ensures DocsEvolve(s.db, Next(s, st).db)
  {
    if st.Ack? && st.w < |s.workers| && s.workers[st.w].pc.InTxn? {
      CommitDocs(s.db, s.workers[st.w].pc.t);
    } else if st.Land? && st.i < |s.inDoubt| {
      CommitDocs(s.db, s.inDoubt[st.i]);
    }
  }

  lemma BegunStays(a: Db, b: Db, t: Txn)
    requires Begun(a, t) && DocsEvolve(a, b)
    ensures Begun(b, t)
  {
    DocsTrans(t.snap, a, b);
  }

  /** A worker with an open transaction after the step had it before, or has just begun it. */
  lemma WorkerStep(s: Sys, st: Step, w: nat)
    requires w < |Next(s, st).workers| && Next(s, st).workers[w].pc.InTxn?
    ensures (w < |s.workers| && Next(s, st).workers[w] == s.workers[w])
            || (st == Begin(w) && w < |s.workers| && Next(s, st).db == s.db && s.workers[w].pc.Ready?
                && !BodyThrows(s.db, s.workers[w].job)
                && Next(s, st).workers[w] == Worker(s.workers[w].job, InTxn(s.workers[w].pc.attempt, Body(s.db, s.workers[w].job, s.workers[w].pc.amounts))))
  {
  }

  /** A transaction in doubt after the step was so before, or its worker has just lost the reply. */
  lemma DoubtStep(s: Sys, st: Step, i: nat)
    requires i < |Next(s, st).inDoubt|
    ensures Next(s, st).inDoubt[i] in s.inDoubt
            || (st.Unknown? && st.w < |s.workers| && s.workers[st.w].pc.InTxn? && Next(s, st).inDoubt[i] == s.workers[st.w].pc.t)
  {
    if (st.Land? || st.Drop?) && st.i < |s.inDoubt| {
      assert Remove(s.inDoubt, st.i)[i] == s.inDoubt[if i < st.i then i else i + 1];
    } else if i < |s.inDoubt| {
      assert s.inDoubt[i] in s.inDoubt;
    }
  }

  lemma DocsStep(s: Sys, st: Step)
    requires DocsInv(s)
    ensures DocsInv(Next(s, st))
  {
    var after := Next(s, st);
    DbStep(s, st);
    forall w | 0 <= w < |after.workers| && after.workers[w].pc.InTxn?
      ensures Begun(after.db, after.workers[w].pc.t) && after.workers[w].pc.t.job == after.workers[w].job
    {
      WorkerStep(s, st, w);
      if after.workers[w] == s.workers[w] { BegunStays(s.db, after.db, s.workers[w].pc.t); }
    }
    forall i | 0 <= i < |after.inDoubt| ensures Begun(after.db, after.inDoubt[i]) {
      DoubtStep(s, st, i);
      BegunStays(s.db, after.db, after.inDoubt[i]);
    }
  }

  // ---------------------------------------------------------------- one match, in every run

  /** The match and amounts a pricing step gives a release job. */
  function PricedBy(s: Sys, st: Step): set<(MatchId, Amounts)> {
    if st.Price? && st.quote.Some? && st.w < |s.workers| && s.workers[st.w] == Worker(Release(st.m), Checked)
    then {(st.m, st.quote.value)}
    else {}
  }

  function Prices(s: Sys, run: seq<Step>): set<(MatchId, Amounts)>
    decreases |run|
  {
    if run == [] then {} else PricedBy(s, run[0]) + Prices(Next(s, run[0]), run[1..])
  }

  /** Everything priced for the watched match is one of its prices; what other matches pay does not matter. */
  ghost predicate PricedWithin(prices: set<(MatchId, Amounts)>, w: Watch) {
    forall a: Amounts :: (w.m, a) in prices ==> a in w.prices
  }

  ghost predicate WorkerOk(db: Db, x: Worker, w: Watch) {
    && (x.job == Release(w.m) && x.pc.Ready? ==> x.pc.amounts in w.prices)
    && (x.pc.InTxn? ==> x.pc.t.job == x.job && TxnOk(db, x.pc.t, w))
    && (x.job == Release(w.m) && x.pc.Returned? ==> Settlement(db.ledger, w.m) != [])
  }

  ghost predicate Inv(s: Sys, w: Watch) {
    && MatchOk(s.db, w)
    && (forall i :: 0 <= i < |s.workers| ==> WorkerOk(s.db, s.workers[i], w))
    && (forall i :: 0 <= i < |s.inDoubt| ==> TxnOk(s.db, s.inDoubt[i], w))
  }

  predicate Init(s: Sys) {
    s.workers == [] && s.inDoubt == [] && s.db.ledger == []
  }

  lemma InitInv(s: Sys, w: Watch)
    requires Init(s) && w.m < |s.db.matches| && s.db.matches[w.m].payout == w.shown
    ensures Inv(s, w)
  {
  }

  lemma InitDocs(s: Sys)
    requires Init(s)
    ensures DocsInv(s)
  {
  }

  /** Steps that commit nothing write no row and no payout. */
  lemma QuietStep(s: Sys, st: Step, m: MatchId)
    requires Committed(s, st) == None && m < |s.db.matches|
    ensures var after := Next(s, st).db;
            after.ledger == s.db.ledger && m < |after.matches| && after.matches[m].payout == s.db.matches[m].payout
  {
  }

  /** The store keeps the watched match in order, and evolves. */
  lemma DbKeeps(s: Sys, st: Step, w: Watch)
    requires Guarded(w) && Inv(s, w)
    ensures MatchOk(Next(s, st).db, w) && Evolves(s.db, Next(s, st).db, w)
  {
    var t, after := Committed(s, st), Next(s, st).db;
    DbStep(s, st);
    if t.Some? {
      if st.Ack? { assert WorkerOk(s.db, s.workers[st.w], w); }
      CommitKeeps(s.db, t.value, w);
    } else {
      QuietStep(s, st, w.m);
      assert MatchDocEvolves(s.db.matches[w.m], after.matches[w.m]);
      if Settlement(s.db.ledger, w.m) != [] {
        var a :| a in w.prices && SettledAs(s.db, w.m, a);
        assert SettledAs(after, w.m, a);
      }
    }
  }

  lemma TxnStays(a: Db, b: Db, t: Txn, w: Watch)
    requires TxnOk(a, t, w) && Evolves(a, b, w)
    ensures TxnOk(b, t, w)
  {
    BegunStays(a, b, t);
    EvolvesTrans(t.snap, a, b, w);
  }

  /** A worker that is ready after the step was so before, was just priced, or is to try again. */
  lemma ReadyStep(s: Sys, st: Step, i: nat)
    requires i < |Next(s, st).workers| && Next(s, st).workers[i].pc.Ready? && Next(s, st).workers[i].job.Release?
    ensures i < |s.workers| && s.workers[i].job == Next(s, st).workers[i].job
    ensures var x, y := s.workers[i], Next(s, st).workers[i];
            || x == y
            || (x.job.m, y.pc.amounts) in PricedBy(s, st)
            || (x.pc.InTxn? && y.pc.amounts == x.pc.t.amounts)
  {
  }

  /** A release that has returned after the step had so before, found the payout row, or has just committed. */
  lemma ReturnedStep(s: Sys, st: Step, i: nat)
    requires i < |Next(s, st).workers| && Next(s, st).workers[i].pc.Returned? && Next(s, st).workers[i].job.Release?
    ensures i < |s.workers| && s.workers[i].job == Next(s, st).workers[i].job
    ensures var x := s.workers[i];
            || x == Next(s, st).workers[i]
            || (HasPayout(s.db.ledger, x.job.m) && Next(s, st).db == s.db)
            || (x.pc.InTxn? && NoConflict(s.db, x.pc.t) && Next(s, st).db == Commit(s.db, x.pc.t))
  {
  }

  lemma WorkerKeeps(s: Sys, st: Step, w: Watch, i: nat)
    requires Guarded(w) && Inv(s, w) && PricedWithin(PricedBy(s, st), w) && i < |Next(s, st).workers|
    ensures WorkerOk(Next(s, st).db, Next(s, st).workers[i], w)
  {
    var after := Next(s, st);
    var y := after.workers[i];
    DbKeeps(s, st, w);
    if i < |s.workers| { assert WorkerOk(s.db, s.workers[i], w); }
    if y.pc.InTxn? {
      WorkerStep(s, st, i);
      if y == s.workers[i] { TxnStays(s.db, after.db, y.pc.t, w); }
    } else if y.job == Release(w.m) && y.pc.Ready? {
      ReadyStep(s, st, i);
    } else if y.job == Release(w.m) && y.pc.Returned? {
      ReturnedStep(s, st, i);
      PayoutMeansSettled(s.db, w);
      if s.workers[i].pc.InTxn? && NoConflict(s.db, s.workers[i].pc.t) { CommitKeeps(s.db, s.workers[i].pc.t, w); }
    }
  }

  lemma StepKeeps(s: Sys, st: Step, w: Watch)
    requires Guarded(w) && Inv(s, w) && PricedWithin(PricedBy(s, st), w)
    ensures Inv(Next(s, st), w) && Evolves(s.db, Next(s, st).db, w)
  {
    var after := Next(s, st);
    DbKeeps(s, st, w);
    forall i | 0 <= i < |after.workers| ensures WorkerOk(after.db, after.workers[i], w) {
      WorkerKeeps(s, st, w, i);
    }
    forall i | 0 <= i < |after.inDoubt| ensures TxnOk(after.db, after.inDoubt[i], w) {
      DoubtStep(s, st, i);
      if st.Unknown? && st.w < |s.workers| { assert WorkerOk(s.db, s.workers[st.w], w); }
      TxnStays(s.db, after.db, after.inDoubt[i], w);
    }
  }

  lemma {:induction false} RunKeeps(s: Sys, run: seq<Step>, w: Watch)
    requires Guarded(w) && Inv(s, w) && PricedWithin(Prices(s, run), w)
    ensures Inv(Exec(s, run), w) && Evolves(s.db, Exec(s, run).db, w)
    decreases |run|
  {
    if run != [] {
      var next := Next(s, run[0]);
      StepKeeps(s, run[0], w);
      RunKeeps(next, run[1..], w);
      EvolvesTrans(s.db, next.db, Exec(s, run).db, w);
    }
  }

  // ---------------------------------------------------------------- main results

  /** What a match's releases are priced at in the run. */
  function PricesOf(s: Sys, run: seq<Step>, m: MatchId): set<Amounts> {
    set p <- Prices(s, run) | p.0 == m :: p.1
  }

  /** Every price moves money, or every price changes the payout the match shows. */
  predicate KeptApart(prices: set<Amounts>, shown: Option<int>) {
    (forall a <- prices :: Pays(a)) || (forall a <- prices :: Some(a.payout) != shown)
  }

  function WatchOf(m: MatchId, shown: Option<int>, prices: set<Amounts>): (w: Watch)
    ensures KeptApart(prices, shown) ==> Guarded(w)
  {
    Watch(m, shown, prices, if forall a <- prices :: Pays(a) then CarrierDoc else MatchDoc)
  }

  lemma WatchedRun(s0: Sys, run: seq<Step>, m: MatchId) returns (w: Watch)
    requires Init(s0) && m < |s0.db.matches| && KeptApart(PricesOf(s0, run, m), s0.db.matches[m].payout)
    ensures w.m == m && w.prices == PricesOf(s0, run, m) && Guarded(w) && Inv(s0, w) && Inv(Exec(s0, run), w)
    ensures Evolves(s0.db, Exec(s0, run).db, w) && PricedWithin(Prices(s0, run), w)
  {
    w := WatchOf(m, s0.db.matches[m].payout, PricesOf(s0, run, m));
    assert forall a: Amounts :: (m, a) in Prices(s0, run) ==> (m, a).1 in w.prices;
    InitInv(s0, w);
    RunKeeps(s0, run, w);
  }

  /**
   Exactly-once payout. Over every interleaving, whatever other matches pay, a
   match's settlement is absent or is the three rows of one release to its own
   carrier, of amounts that were priced for this very match in this run; it is
   there as soon as any `releaseFunds` call for the match has returned normally.
   */
  lemma ExactlyOncePayout(s0: Sys, run: seq<Step>, m: MatchId)
    requires Init(s0) && m < |s0.db.matches| && KeptApart(PricesOf(s0, run, m), s0.db.matches[m].payout)
    ensures var s, doc := Exec(s0, run), s0.db.matches[m];
            && m < |s.db.matches|
            && (Settlement(s.db.ledger, m) == [] ||
                exists a: Amounts ::
                  (m, a) in Prices(s0, run)
                  && Settlement(s.db.ledger, m) == SettlementRows(doc.carrier, doc.sender, m, a)
                  && s.db.matches[m].payout == Some(a.payout))
            && (forall i :: 0 <= i < |s.workers| && s.workers[i] == Worker(Release(m), Returned) ==>
                  Settlement(s.db.ledger, m) != [])
  {
    var w := WatchedRun(s0, run, m);
    var s := Exec(s0, run);
    assert MatchDocEvolves(s0.db.matches[m], s.db.matches[m]);
    if Settlement(s.db.ledger, m) != [] {
      var a :| a in w.prices && SettledAs(s.db, m, a);
      assert (m, a) in Prices(s0, run);
    }
    forall i | 0 <= i < |s.workers| && s.workers[i] == Worker(Release(m), Returned)
      ensures Settlement(s.db.ledger, m) != []
    {
      assert WorkerOk(s.db, s.workers[i], w);
    }
  }

  lemma {:induction false} ExecConcat(s: Sys, a: seq<Step>, b: seq<Step>)
    ensures Exec(s, a + b) == Exec(Exec(s, a), b)
    ensures Prices(s, a + b) == Prices(s, a) + Prices(Exec(s, a), b)
    decreases |a|
  {
    if a == [] {
      assert a + b == b;
    } else {
      assert (a + b)[1..] == a[1..] + b;
      ExecConcat(Next(s, a[0]), a[1..], b);
    }
  }

  /** Once written, a settlement is never changed by any later step. */
  lemma SettlementIsFinal(s0: Sys, run: seq<Step>, later: seq<Step>, m: MatchId)
    requires Init(s0) && m < |s0.db.matches| && KeptApart(PricesOf(s0, run + later, m), s0.db.matches[m].payout)
    requires Settlement(Exec(s0, run).db.ledger, m) != []
    ensures Settlement(Exec(s0, run + later).db.ledger, m) == Settlement(Exec(s0, run).db.ledger, m)
  {
    var w := WatchedRun(s0, run + later, m);
    ExecConcat(s0, run, later);
    RunKeeps(s0, run, w);
    RunKeeps(Exec(s0, run), later, w);
  }

  /** What other services' increments add to `u`'s balance along a run. */
  function Outside(run: seq<Step>, u: UserId): int {
    if run == [] then 0
    else (if run[0].Inc? && run[0].u == u then run[0].balance else 0) + Outside(run[1..], u)
  }

  lemma BalanceStep(s: Sys, st: Step, u: UserId)
    requires DocsInv(s) && u < |s.db.users|
    ensures |Next(s, st).db.users| == |s.db.users|
    ensures Next(s, st).db.users[u].balance - Earned(Next(s, st).db.ledger, u)
            == s.db.users[u].balance - Earned(s.db.ledger, u) + (if st.Inc? && st.u == u then st.balance else 0)
  {
    if st.Ack? && st.w < |s.workers| && s.workers[st.w].pc.InTxn? && NoConflict(s.db, s.workers[st.w].pc.t) {
      BalanceCommit(s.db, s.workers[st.w].pc.t, u);
    } else if st.Land? && st.i < |s.inDoubt| && NoConflict(s.db, s.inDoubt[st.i]) {
      BalanceCommit(s.db, s.inDoubt[st.i], u);
    }
  }

  /**
   No lost update: although a release writes an absolute balance computed from
   its snapshot, every balance is always what it was plus the committed credit
   rows plus what other services added. This holds of every run, whatever its
   releases are priced at.
   */
  lemma {:induction false} BalanceIsLedger(s: Sys, run: seq<Step>, u: UserId)
    requires DocsInv(s) && u < |s.db.users|
    ensures |Exec(s, run).db.users| == |s.db.users|
    ensures Exec(s, run).db.users[u].balance - Earned(Exec(s, run).db.ledger, u)
            == s.db.users[u].balance - Earned(s.db.ledger, u) + Outside(run, u)
    decreases |run|
  {
    if run != [] {
      DocsStep(s, run[0]);
      BalanceStep(s, run[0], u);
      BalanceIsLedger(Next(s, run[0]), run[1..], u);
    }
  }

  // ---------------------------------------------------------------- conservation

  predicate CoveredStep(s: Sys, st: Step) {
    st.Begin? && st.w < |s.workers| && s.workers[st.w].pc.Ready? && !BodyThrows(s.db, s.workers[st.w].job) ==>
      Covered(Body(s.db, s.workers[st.w].job, s.workers[st.w].pc.amounts))
  }

  /** Every transaction the run begins is covered by the escrows its snapshot shows. */
  predicate CoveredRun(s: Sys, run: seq<Step>)
    decreases |run|
  {
    run == [] ||
    (&& !run[0].Inc?
     && CoveredStep(s, run[0])
     && CoveredRun(Next(s, run[0]), run[1..]))
  }

  predicate AllCovered(s: Sys) {
    && (forall w :: 0 <= w < |s.workers| && s.workers[w].pc.InTxn? ==> Covered(s.workers[w].pc.t))
    && (forall i :: 0 <= i < |s.inDoubt| ==> Covered(s.inDoubt[i]))
  }

  lemma ConserveAck(s: Sys, w: nat)
    requires DocsInv(s) && AllCovered(s) && w < |s.workers| && s.workers[w].pc.InTxn?
    ensures AllCovered(Next(s, Ack(w))) && Books(Next(s, Ack(w)).db) == Books(s.db)
  {
    var t := s.workers[w].pc.t;
    if NoConflict(s.db, t) {
      CoveredCommit(s.db, t);
    }
  }

  lemma ConserveLand(s: Sys, i: nat)
    requires DocsInv(s) && AllCovered(s) && i < |s.inDoubt|
    ensures AllCovered(Next(s, Land(i))) && Books(Next(s, Land(i)).db) == Books(s.db)
    ensures AllCovered(Next(s, Drop(i)))
  {
    var t, left := s.inDoubt[i], Remove(s.inDoubt, i);
    forall k | 0 <= k < |left| ensures Covered(left[k]) {
      assert left[k] == s.inDoubt[if k < i then k else k + 1];
    }
    if NoConflict(s.db, t) {
      CoveredCommit(s.db, t);
    }
  }

  lemma ConserveStep(s: Sys, st: Step)
    requires DocsInv(s) && AllCovered(s) && !st.Inc? && CoveredStep(s, st)
    ensures AllCovered(Next(s, st)) && Books(Next(s, st).db) == Books(s.db)
  {
    if Next(s, st) != s {
      match st
      case Ack(w) => ConserveAck(s, w);
      case Land(i) => ConserveLand(s, i);
      case Drop(i) => ConserveLand(s, i);
      case TouchUser(u) => WealthUpdate(s.db.users, u, s.db.users[u].(version := s.db.users[u].version + 1));
      case _ =>
    }
  }

  /** Balances, escrow and collected fees, less the amounts newly held, never change over a covered run. */
  lemma {:induction false} MoneyConserved(s: Sys, run: seq<Step>)
    requires DocsInv(s) && AllCovered(s) && CoveredRun(s, run)
    ensures Books(Exec(s, run).db) == Books(s.db)
    decreases |run|
  {
    if run != [] {
      DocsStep(s, run[0]);
      ConserveStep(s, run[0]);
      MoneyConserved(Next(s, run[0]), run[1..]);
    }
  }

  lemma CommittedBegun(s: Sys, st: Step)
    requires DocsInv(s)
    ensures var t := Committed(s, st);
            t.Some? ==> Begun(s.db, t.value) && NoConflict(s.db, t.value) && Next(s, st).db == Commit(s.db, t.value)
  {
  }

  /** Money the run's commits make, and other services put in. */
  ghost function MoneyIn(s: Sys, run: seq<Step>): int
    requires DocsInv(s)
    decreases |run|
  {
    if run == [] then 0
    else
      DocsStep(s, run[0]);
      CommittedBegun(s, run[0]);
      var st, t := run[0], Committed(s, run[0]);
      (if t.Some? then Drift(t.value) else if st.Inc? && st.u < |s.db.users| then st.balance + st.escrow else 0)
      + MoneyIn(Next(s, st), run[1..])
  }

  lemma PartiesStay(a: Db, b: Db)
    requires DocsEvolve(a, b) && DistinctParties(a)
    ensures DistinctParties(b)
  {
    forall i | 0 <= i < |b.matches| ensures b.matches[i].carrier != b.matches[i].sender {
      assert MatchDocEvolves(a.matches[i], b.matches[i]);
    }
  }

  lemma BooksStep(s: Sys, st: Step)
    requires DocsInv(s) && DistinctParties(s.db)
    ensures Committed(s, st).Some? ==> !BodyThrows(Committed(s, st).value.snap, Committed(s, st).value.job)
    ensures var t := Committed(s, st);
            Books(Next(s, st).db) == Books(s.db) + if t.Some? then Drift(t.value)
                                                   else if st.Inc? && st.u < |s.db.users| then st.balance + st.escrow else 0
  {
    if Committed(s, st).Some? {
      var t := Committed(s, st).value;
      CommittedBegun(s, st);
      if t.job.Release? { assert MatchDocEvolves(t.snap.matches[t.job.m], s.db.matches[t.job.m]); }
      BooksCommit(s.db, t);
    } else if st.Inc? && st.u < |s.db.users| {
      WealthUpdate(s.db.users, st.u, Next(s, st).db.users[st.u]);
    } else if st.TouchUser? && st.u < |s.db.users| {
      WealthUpdate(s.db.users, st.u, Next(s, st).db.users[st.u]);
    }
  }

  /**
   The books after any run: what they were, plus what each committed release
   paid beyond the escrows its snapshot showed, plus what came from outside.
   */
  lemma {:induction false} BooksAccount(s: Sys, run: seq<Step>)
    requires DocsInv(s) && DistinctParties(s.db)
    ensures Books(Exec(s, run).db) == Books(s.db) + MoneyIn(s, run)
    decreases |run|
  {
    if run != [] {
      DocsStep(s, run[0]);
      DbStep(s, run[0]);
      BooksStep(s, run[0]);
      PartiesStay(s.db, Next(s, run[0]).db);
      BooksAccount(Next(s, run[0]), run[1..]);
    }
  }

  // ---------------------------------------------------------------- how far the promises go

  /** A run whose successive states are known. */
  lemma {:induction false} ExecAlong(states: seq<Sys>, run: seq<Step>)
    requires |states| == |run| + 1
    requires forall i :: 0 <= i < |run| ==> Next(states[i], run[i]) == states[i + 1]
    ensures Exec(states[0], run) == states[|run|]
    decreases |run|
  {
    if run != [] {
      ExecAlong(states[1..], run[1..]);
    }
  }

  /**
   In every run from a store whose match shows `shown`, and which prices its
   releases within `prices`, the match is settled at most once.
   */
  ghost predicate AlwaysOnce(prices: set<Amounts>, shown: Option<int>) {
    forall s0: Sys, run: seq<Step>, m: MatchId ::
      Init(s0) && m < |s0.db.matches| && s0.db.matches[m].payout == shown && PricesOf(s0, run, m) <= prices ==>
        |Settlement(Exec(s0, run).db.ledger, m)| <= 3
  }

  /** Two workers price their releases and open their transactions on the same snapshot. */
  function RaceOpens(a: Amounts, b: Amounts): seq<Step> {
    [Submit(Release(0)), Submit(Release(0)), Check(0), Check(1), Price(0, 0, Some(a)), Price(1, 0, Some(b)), Begin(0), Begin(1)]
  }

  /** Two workers racing, one at a price that moves nothing and one at a price the match already shows: they write no document in common. */
  function RaceRun(a: Amounts, b: Amounts): seq<Step> {
    RaceOpens(a, b) + [Ack(0), Ack(1)]
  }

  function RaceStart(shown: Option<int>): Sys {
    Sys(Db([User(0, 0, 0), User(0, 0, 0)], [Match(0, 1, 0, shown, 0)], []), [], [])
  }

  function RaceTxn(a: Amounts, shown: Option<int>): Txn {
    ReleaseTxn(RaceStart(shown).db, 0, a)
  }

  function RaceStates(db: Db, a: Amounts, b: Amounts, t: Txn, u: Txn): seq<Sys> {
    var job, s0 := Release(0), Sys(db, [], []);
    var q, c, ra, rb := Worker(job, Queued), Worker(job, Checked), Worker(job, Ready(a, 1)), Worker(job, Ready(b, 1));
    var x, y := Worker(job, InTxn(1, t)), Worker(job, InTxn(1, u));
    [s0, s0.(workers := [q]), s0.(workers := [q, q]), s0.(workers := [c, q]), s0.(workers := [c, c]),
     s0.(workers := [ra, c]), s0.(workers := [ra, rb]), s0.(workers := [x, rb]), s0.(workers := [x, y])]
  }

  /** The two prices of a race: the first moves nothing, the second is what the match shows. */
  predicate Racing(a: Amounts, b: Amounts, shown: Option<int>) {
    && a.deposit == 0 && a.payout == 0 && a.charge >= 0
    && b.deposit >= 0 && b.charge >= 0 && Some(b.payout) == shown
  }

  lemma RaceWrites(a: Amounts, b: Amounts, shown: Option<int>)
    requires Racing(a, b, shown)
    ensures var t, u, db := RaceTxn(a, shown), RaceTxn(b, shown), RaceStart(shown).db;
            && t.userWrites == [] && u.matchWrites == []
            && NoConflict(db, t) && NoConflict(Commit(db, t), u)
            && t.rows == SettlementRows(0, 1, 0, a) && u.rows == SettlementRows(0, 1, 0, b)
  {
    var t, u, db := RaceTxn(a, shown), RaceTxn(b, shown), RaceStart(shown).db;
    assert !HasPayout(db.ledger, 0);
    assert t.userWrites == [] && u.matchWrites == [];
    assert Commit(db, t).users == db.users;
    forall w <- u.userWrites ensures w.user < 2 {}
    forall w <- t.matchWrites ensures w.m == 0 {}
  }

  lemma RaceChecks(db: Db, a: Amounts, b: Amounts, t: Txn, u: Txn, i: nat)
    requires i < 4 && 0 < |db.matches| && !HasPayout(db.ledger, 0) && !BodyThrows(db, Release(0))
    requires t == ReleaseTxn(db, 0, a) && u == ReleaseTxn(db, 0, b)
    ensures Next(RaceStates(db, a, b, t, u)[i], RaceOpens(a, b)[i]) == RaceStates(db, a, b, t, u)[i + 1]
  {
  }

  lemma RaceBegins(db: Db, a: Amounts, b: Amounts, t: Txn, u: Txn, i: nat)
    requires 4 <= i < 8 && 0 < |db.matches| && !HasPayout(db.ledger, 0) && !BodyThrows(db, Release(0))
    requires t == ReleaseTxn(db, 0, a) && u == ReleaseTxn(db, 0, b)
    ensures Next(RaceStates(db, a, b, t, u)[i], RaceOpens(a, b)[i]) == RaceStates(db, a, b, t, u)[i + 1]
  {
  }

  lemma RaceOpened(db: Db, a: Amounts, b: Amounts, t: Txn, u: Txn)
    requires 0 < |db.matches| && !HasPayout(db.ledger, 0) && !BodyThrows(db, Release(0))
    requires t == ReleaseTxn(db, 0, a) && u == ReleaseTxn(db, 0, b)
    ensures Exec(Sys(db, [], []), RaceOpens(a, b)) == Sys(db, [Worker(Release(0), InTxn(1, t)), Worker(Release(0), InTxn(1, u))], [])
  {
    var states := RaceStates(db, a, b, t, u);
    forall i | 0 <= i < 8 ensures Next(states[i], RaceOpens(a, b)[i]) == states[i + 1] {
      if i < 4 { RaceChecks(db, a, b, t, u, i); } else { RaceBegins(db, a, b, t, u, i); }
    }
    ExecAlong(states, RaceOpens(a, b));
  }

  lemma RaceAcks(db: Db, t: Txn, u: Txn)
    requires NoConflict(db, t) && NoConflict(Commit(db, t), u)
    ensures Exec(Sys(db, [Worker(Release(0), InTxn(1, t)), Worker(Release(0), InTxn(1, u))], []), [Ack(0), Ack(1)])
            == Sys(Commit(Commit(db, t), u), [Worker(Release(0), Returned), Worker(Release(0), Returned)], [])
  {
    var x, y, d := Worker(Release(0), InTxn(1, t)), Worker(Release(0), InTxn(1, u)), Worker(Release(0), Returned);
    var states := [Sys(db, [x, y], []), Sys(Commit(db, t), [d, y], []), Sys(Commit(Commit(db, t), u), [d, d], [])];
    assert Next(states[0], Ack(0)) == states[1];
    assert Next(states[1], Ack(1)) == states[2];
    ExecAlong(states, [Ack(0), Ack(1)]);
  }

  /** What is priced in a run is what its pricing steps say. */
  lemma {:induction false} OnlyListed(s: Sys, run: seq<Step>, prices: set<Amounts>)
    requires forall st <- run :: st.Price? && st.quote.Some? ==> st.quote.value in prices
    ensures forall p <- Prices(s, run) :: p.1 in prices
    decreases |run|
  {
    if run != [] {
      OnlyListed(Next(s, run[0]), run[1..], prices);
    }
  }

  lemma SixRows(a: Amounts, b: Amounts)
    ensures |Settlement([] + SettlementRows(0, 1, 0, a) + SettlementRows(0, 1, 0, b), 0)| == 6
  {
    var none, x, y := [], SettlementRows(0, 1, 0, a), SettlementRows(0, 1, 0, b);
    SettlementConcat(none, x, 0);
    SettlementConcat(none + x, y, 0);
    ThreeRows(x[0], x[1], x[2], 0, 0);
    ThreeRows(y[0], y[1], y[2], 0, 0);
  }

  lemma RaceLedger(a: Amounts, b: Amounts, shown: Option<int>)
    requires Racing(a, b, shown)
    ensures Exec(RaceStart(shown), RaceRun(a, b)).db.ledger == [] + SettlementRows(0, 1, 0, a) + SettlementRows(0, 1, 0, b)
  {
    var t, u, db := RaceTxn(a, shown), RaceTxn(b, shown), RaceStart(shown).db;
    RaceWrites(a, b, shown);
    RaceOpened(db, a, b, t, u);
    RaceAcks(db, t, u);
    ExecConcat(RaceStart(shown), RaceOpens(a, b), [Ack(0), Ack(1)]);
  }

  lemma RaceSettlesTwice(a: Amounts, b: Amounts, shown: Option<int>)
    requires Racing(a, b, shown)
    ensures |Settlement(Exec(RaceStart(shown), RaceRun(a, b)).db.ledger, 0)| == 6
    ensures PricesOf(RaceStart(shown), RaceRun(a, b), 0) <= {a, b}
  {
    RaceLedger(a, b, shown);
    SixRows(a, b);
    OnlyListed(RaceStart(shown), RaceRun(a, b), {a, b});
  }

  /**
   At most one payout is guaranteed exactly when the prices a match may be
   released at all move money, or all differ from the payout it shows: then any
   two releases write a document in common.
   */
  lemma OnceIffKeptApart(prices: set<Amounts>, shown: Option<int>)
    requires forall a <- prices :: a.deposit >= 0 && a.payout >= 0 && a.charge >= 0
    ensures AlwaysOnce(prices, shown) <==> KeptApart(prices, shown)
  {
    if KeptApart(prices, shown) {
      forall s0: Sys, run: seq<Step>, m: MatchId
        | Init(s0) && m < |s0.db.matches| && s0.db.matches[m].payout == shown && PricesOf(s0, run, m) <= prices
        ensures |Settlement(Exec(s0, run).db.ledger, m)| <= 3
      {
        ExactlyOncePayout(s0, run, m);
      }
    } else {
      var a :| a in prices && !Pays(a);
      var b :| b in prices && Some(b.payout) == shown;
      RaceSettlesTwice(a, b, shown);
      assert Init(RaceStart(shown));
    }
  }

  function HoldRows(ledger: seq<Row>): nat {
    if ledger == [] then 0
    else HoldRows(ledger[..|ledger| - 1]) + if ledger[|ledger| - 1].kind == EscrowHold then 1 else 0
  }

  predicate HoldDone(x: Worker) {
    x.job.Hold? && x.pc.Returned?
  }

  /** How many `holdFunds` calls have returned normally. */
  function HoldsReturned(ws: seq<Worker>): nat {
    if ws == [] then 0 else HoldsReturned(ws[..|ws| - 1]) + if HoldDone(ws[|ws| - 1]) then 1 else 0
  }

  /** The step is an in-doubt hold reaching the store. */
  predicate LandsHold(s: Sys, st: Step) {
    st.Land? && st.i < |s.inDoubt| && s.inDoubt[st.i].job.Hold? && NoConflict(s.db, s.inDoubt[st.i])
  }

  function LandedHolds(s: Sys, run: seq<Step>): nat
    decreases |run|
  {
    if run == [] then 0 else (if LandsHold(s, run[0]) then 1 else 0) + LandedHolds(Next(s, run[0]), run[1..])
  }

  lemma {:induction false} HoldRowsConcat(l: seq<Row>, k: seq<Row>)
    ensures HoldRows(l + k) == HoldRows(l) + HoldRows(k)
  {
    if k == [] {
      assert l + k == l;
    } else {
      var lk := l + k;
      assert lk[..|lk| - 1] == l + k[..|k| - 1];
      HoldRowsConcat(l, k[..|k| - 1]);
    }
  }

  lemma NoHoldRows(x: Row, y: Row, z: Row)
    requires x.kind != EscrowHold && y.kind != EscrowHold && z.kind != EscrowHold
    ensures HoldRows([x, y, z]) == 0
  {
    assert [x, y, z][..2] == [x, y] && [x, y][..1] == [x] && [x][..0] == [];
    assert HoldRows([x, y, z]) == HoldRows([x, y]) == HoldRows([x]);
  }

  /** A commit writes one hold row for a hold and none for a release. */
  lemma HoldRowsCommit(db: Db, t: Txn)
    requires Begun(db, t)
    ensures HoldRows(Commit(db, t).ledger) == HoldRows(db.ledger) + if t.job.Hold? then 1 else 0
  {
    HoldRowsConcat(db.ledger, t.rows);
    if t.job.Hold? {
      assert t.rows[..0] == [];
    } else if t.rows != [] {
      NoHoldRows(t.rows[0], t.rows[1], t.rows[2]);
      assert t.rows == [t.rows[0], t.rows[1], t.rows[2]];
    }
  }

  lemma {:induction false} ReturnedUpdate(ws: seq<Worker>, w: nat, x: Worker)
    requires w < |ws|
    ensures HoldsReturned(ws[w := x])
            == HoldsReturned(ws) - (if HoldDone(ws[w]) then 1 else 0) + (if HoldDone(x) then 1 else 0)
  {
    var n, after := |ws| - 1, ws[w := x];
    if w < n {
      ReturnedUpdate(ws[..n], w, x);
      assert after[..n] == ws[..n][w := x];
    } else {
      assert after[..n] == ws[..n];
    }
  }

  /** Hold rows that no returned call accounts for. */
  function SurplusHolds(s: Sys): int {
    HoldRows(s.db.ledger) - HoldsReturned(s.workers)
  }

  /** Steps that move one worker along without a commit. */
  lemma HoldsLocal(s: Sys, w: nat, pc: Pc)
    requires w < |s.workers| && !HoldDone(s.workers[w]) && !HoldDone(Worker(s.workers[w].job, pc))
    ensures SurplusHolds(SetPc(s, w, pc)) == SurplusHolds(s)
  {
    ReturnedUpdate(s.workers, w, s.workers[w].(pc := pc));
  }

  lemma HoldsAck(s: Sys, w: nat)
    requires DocsInv(s) && w < |s.workers| && s.workers[w].pc.InTxn?
    ensures SurplusHolds(Next(s, Ack(w))) == SurplusHolds(s)
  {
    var x, t := s.workers[w], s.workers[w].pc.t;
    if NoConflict(s.db, t) {
      HoldRowsCommit(s.db, t);
      ReturnedUpdate(s.workers, w, x.(pc := Returned));
      assert Next(s, Ack(w)) == SetPc(s.(db := Commit(s.db, t)), w, Returned);
    } else {
      HoldsLocal(s, w, AfterTransient(t.amounts, x.pc.attempt));
    }
  }

  lemma HoldsStep(s: Sys, st: Step)
    requires DocsInv(s)
    ensures SurplusHolds(Next(s, st)) == SurplusHolds(s) + if LandsHold(s, st) then 1 else 0
  {
    if Next(s, st) != s {
      match st
      case Submit(job) => assert (s.workers + [Worker(job, Queued)])[..|s.workers|] == s.workers;
      case Land(i) => HoldRowsCommit(s.db, s.inDoubt[i]);
      case TouchUser(_) =>
      case TouchMatch(_) =>
      case Inc(_, _, _) =>
      case Drop(_) =>
      case Ack(w) => HoldsAck(s, w);
      case _ => HoldsLocal(s, st.w, Next(s, st).workers[st.w].pc);
    }
  }

  lemma {:induction false} HoldsCounted(s: Sys, run: seq<Step>)
    requires DocsInv(s)
    ensures SurplusHolds(Exec(s, run)) == SurplusHolds(s) + LandedHolds(s, run)
    decreases |run|
  {
    if run != [] {
      DocsStep(s, run[0]);
      HoldsStep(s, run[0]);
      HoldsCounted(Next(s, run[0]), run[1..]);
    }
  }

  /**
   Holds have no idempotency check. The ledger shows exactly one hold per call
   that returned normally if and only if no hold whose commit was reported as
   unknown reached the store.
   */
  lemma HoldsExactIff(s0: Sys, run: seq<Step>)
    requires Init(s0)
    ensures HoldRows(Exec(s0, run).db.ledger) == HoldsReturned(Exec(s0, run).workers) <==> LandedHolds(s0, run) == 0
    ensures HoldRows(Exec(s0, run).db.ledger) >= HoldsReturned(Exec(s0, run).workers)
  {
    InitDocs(s0);
    HoldsCounted(s0, run);
  }

  function HoldTwiceRun(amount: int): seq<Step> {
    [Submit(Hold(1, 0, amount)), Check(0), Begin(0), Unknown(0), Land(0), Begin(0), Ack(0)]
  }

  /** The store after `n` holds of `amount` on user 1. */
  function HeldDb(amount: int, n: nat): Db {
    Db([User(0, 0, 0), User(0, n * amount, n)], RaceStart(Some(0)).db.matches, seq(n, _ => Row(1, 0, EscrowHold, amount)))
  }

  function HoldTwiceStates(amount: int): seq<Sys> {
    var job := Hold(1, 0, amount);
    var db0, db1, db2 := HeldDb(amount, 0), HeldDb(amount, 1), HeldDb(amount, 2);
    var t1, t2 := Body(db0, job, NO_AMOUNTS), Body(db1, job, NO_AMOUNTS);
    [Sys(db0, [], []), Sys(db0, [Worker(job, Queued)], []), Sys(db0, [Worker(job, Ready(NO_AMOUNTS, 1))], []),
     Sys(db0, [Worker(job, InTxn(1, t1))], []), Sys(db0, [Worker(job, Ready(NO_AMOUNTS, 2))], [t1]),
     Sys(db1, [Worker(job, Ready(NO_AMOUNTS, 2))], []), Sys(db1, [Worker(job, InTxn(2, t2))], []),
     Sys(db2, [Worker(job, Returned)], [])]
  }

  lemma HeldOnce(amount: int, n: nat)
    requires amount != 0
    ensures var t := Body(HeldDb(amount, n), Hold(1, 0, amount), NO_AMOUNTS);
            NoConflict(HeldDb(amount, n), t) && Commit(HeldDb(amount, n), t) == HeldDb(amount, n + 1)
  {
    var db := HeldDb(amount, n);
    var t := Body(db, Hold(1, 0, amount), NO_AMOUNTS);
    assert (n + 1) * amount == n * amount + amount;
    assert t.userWrites == [UserWrite(1, None, Some((n + 1) * amount))];
    OneWrite(db.users, t.userWrites[0]);
  }

  lemma HoldTwiceBegins(amount: int, i: nat)
    requires amount != 0 && i < 4
    ensures Next(HoldTwiceStates(amount)[i], HoldTwiceRun(amount)[i]) == HoldTwiceStates(amount)[i + 1]
  {
  }

  lemma HoldTwiceLands(amount: int)
    requires amount != 0
    ensures Next(HoldTwiceStates(amount)[4], HoldTwiceRun(amount)[4]) == HoldTwiceStates(amount)[5]
  {
    HeldOnce(amount, 0);
    var t1 := Body(HeldDb(amount, 0), Hold(1, 0, amount), NO_AMOUNTS);
    assert Remove([t1], 0) == [];
  }

  lemma HoldTwiceRetries(amount: int, i: nat)
    requires amount != 0 && 5 <= i < 7
    ensures Next(HoldTwiceStates(amount)[i], HoldTwiceRun(amount)[i]) == HoldTwiceStates(amount)[i + 1]
  {
    HeldOnce(amount, 1);
  }

  /**
   `holdFunds` has no idempotency check of its own: when a commit that did reach
   the store is reported as unknown, the retry holds the amount a second time.
   */
  lemma UnknownCommitHoldsTwice(amount: int)
    requires amount != 0
    ensures var s := Exec(RaceStart(Some(0)), HoldTwiceRun(amount));
            && s.workers == [Worker(Hold(1, 0, amount), Returned)]
            && s.db.users == [User(0, 0, 0), User(0, 2 * amount, 2)]
            && s.db.ledger == [Row(1, 0, EscrowHold, amount), Row(1, 0, EscrowHold, amount)]
  {
    forall i | 0 <= i < 7 ensures Next(HoldTwiceStates(amount)[i], HoldTwiceRun(amount)[i]) == HoldTwiceStates(amount)[i + 1] {
      if i < 4 { HoldTwiceBegins(amount, i); } else if i == 4 { HoldTwiceLands(amount); } else { HoldTwiceRetries(amount, i); }
    }
    assert HeldDb(amount, 0) == RaceStart(Some(0)).db;
    ExecAlong(HoldTwiceStates(amount), HoldTwiceRun(amount));
    var row := Row(1, 0, EscrowHold, amount);
    assert HeldDb(amount, 2).ledger == [row, row];
  }
}
