/**
 `releaseFunds` as it runs: documents loaded and saved through a session, inside
 the retry loop of `runInTransaction`, while the other workers of `EscrowRuns`
 take their own steps on the same store.
 */
module EscrowService {
  import opened Common
  import opened EscrowStore
  import opened EscrowRuns
  import Stored = Settlement

  /** A loaded user document: its fields, and the values they were loaded with. */
  class UserDoc {
    const id: UserId
    const loaded: User
    var balance: int
    var escrowHeld: int

    constructor (id: UserId, loaded: User)
      ensures this.id == id && this.loaded == loaded
      ensures balance == loaded.balance && escrowHeld == loaded.escrow
    {
      this.id, this.loaded := id, loaded;
      balance, escrowHeld := loaded.balance, loaded.escrow;
    }
  }

  /** One transaction attempt: reads come from the snapshot, writes are buffered. */
  class Session {
    const snap: Db
    var userWrites: seq<UserWrite>
    var matchWrites: seq<MatchWrite>
    var rows: seq<Row>

    constructor (snap: Db)
      ensures this.snap == snap && userWrites == [] && matchWrites == [] && rows == []
    {
      this.snap := snap;
      userWrites, matchWrites, rows := [], [], [];
    }

    method FindUser(id: UserId) returns (doc: UserDoc?)
      ensures doc == null <==> id >= |snap.users|
      ensures doc != null ==> fresh(doc) && doc.id == id && doc.loaded == snap.users[id]
      ensures doc != null ==> doc.balance == doc.loaded.balance && doc.escrowHeld == doc.loaded.escrow
    {
      if id >= |snap.users| {
        return null;
      }
      doc := new UserDoc(id, snap.users[id]);
    }

    /** Sends the modified paths of the document, and nothing when there are none. */
    method Save(doc: UserDoc)
      modifies this`userWrites
      ensures userWrites == old(userWrites) + SaveUser(doc.id, doc.loaded, doc.balance, doc.escrowHeld)
    {
      if doc.balance != doc.loaded.balance || doc.escrowHeld != doc.loaded.escrow {
        userWrites := userWrites + [
          UserWrite(doc.id,
                    if doc.balance != doc.loaded.balance then Some(doc.balance) else None,
                    if doc.escrowHeld != doc.loaded.escrow then Some(doc.escrowHeld) else None)];
      }
    }

    method SaveMatchPayout(m: MatchId, payout: int)
      requires m < |snap.matches|
      modifies this`matchWrites
      ensures matchWrites == old(matchWrites) + SaveMatch(m, snap.matches[m], payout)
    {
      if snap.matches[m].payout != Some(payout) {
        matchWrites := matchWrites + [MatchWrite(m, payout)];
      }
    }

    /** The buffered transaction, as the commit will send it. */
    function Buffered(job: Job, a: Amounts): Txn
      reads this
    {
      Txn(snap, job, a, userWrites, matchWrites, rows)
    }

    /** The transaction body of `releaseFunds`. */
    method ReleaseBody(m: MatchId, a: Amounts) returns (threw: bool)
      requires userWrites == [] && matchWrites == [] && rows == []
      modifies this
      ensures threw <==> m >= |snap.matches| || snap.matches[m].carrier >= |snap.users| || snap.matches[m].sender >= |snap.users|
      ensures !threw ==> Buffered(Release(m), a) == ReleaseTxn(snap, m, a)
    {
      if m >= |snap.matches| {
        return true;
      }
      var doc := snap.matches[m];
      var carrier := FindUser(doc.carrier);
      var sender := FindUser(doc.sender);
      if carrier == null || sender == null {
        return true;
      }
      if HasPayout(snap.ledger, m) {
        return false;
      }
      carrier.escrowHeld := Max(0, carrier.escrowHeld - a.deposit);
      carrier.balance := carrier.balance + (a.deposit + a.payout);
      sender.escrowHeld := Max(0, sender.escrowHeld - a.charge);
      Save(carrier);
      Save(sender);
      rows := rows + SettlementRows(doc.carrier, doc.sender, m, a);
      SaveMatchPayout(m, a.payout);
      return false;
    }
  }

  datatype CommitResult = Acked | Transient | Unknown | OtherError

  datatype Verdict = Done | Again | Stop

  /** What surrounds one attempt: the others' steps before and during it, and how its commit goes. */
  datatype Turn = Turn(before: seq<Step>, during: seq<Step>, result: CommitResult)

  /** The others price releases of the watched match within its prices. */
  predicate Paying(run: seq<Step>, w: Watch) {
    forall st <- run :: st.Price? && st.m == w.m && st.quote.Some? ==> st.quote.value in w.prices
  }

  lemma {:induction false} PayingIsPriced(s: Sys, run: seq<Step>, w: Watch)
    requires Paying(run, w)
    ensures PricedWithin(Prices(s, run), w)
    decreases |run|
  {
    if run != [] {
      PayingIsPriced(Next(s, run[0]), run[1..], w);
    }
  }

  predicate PayingTurns(turns: seq<Turn>, w: Watch) {
    forall t <- turns :: Paying(t.before, w) && Paying(t.during, w)
  }

  /** What `releaseFunds` reads of the trip and the delivery request, and the configured fee. */
  datatype Docs = Docs(deposit: Option<int>, request: Stored.Stored, feePercent: real)

  function AmountsFor(docs: Docs, agreedPrice: int): Amounts {
    Stored.AmountsOf(docs.deposit, docs.request, agreedPrice, docs.feePercent)
  }

  /** The match is there, and so are its carrier and its sender. */
  predicate PartiesExist(db: Db, m: MatchId) {
    m < |db.matches| && db.matches[m].carrier < |db.users| && db.matches[m].sender < |db.users|
  }

  /** An attempt nothing interferes with. */
  predicate Quiet(t: Turn) {
    t.result == Acked && t.during == []
  }

  lemma NothingDone(snap: Db, db: Db, t: Txn)
    requires db == snap && t.snap == snap && Begun(snap, t)
    ensures NoConflict(db, t)
  {
    if t.job.Release? && !HasPayout(snap.ledger, t.job.m) {
      var doc := snap.matches[t.job.m];
      forall w <- t.userWrites ensures w.user < |snap.users| {
        assert w.user == doc.carrier || w.user == doc.sender;
      }
    }
  }

  /** Some attempt is quiet, and no earlier one fails for good. */
  predicate QuietTurn(turns: seq<Turn>) {
    exists i :: 0 <= i < |turns| && Quiet(turns[i]) && forall j :: 0 <= j < i ==> turns[j].result != OtherError
  }

  lemma ExecSnoc(s: Sys, run: seq<Step>, st: Step)
    ensures Exec(s, run + [st]) == Next(Exec(s, run), st)
  {
    ExecConcat(s, run, [st]);
    assert [st][1..] == [];
  }

  lemma ThrowsSame(a: Db, b: Db, m: MatchId)
    requires DocsEvolve(a, b)
    ensures BodyThrows(a, Release(m)) <==> BodyThrows(b, Release(m))
  {
    if m < |a.matches| { assert MatchDocEvolves(a.matches[m], b.matches[m]); }
  }

  /** One commit beside the workers' own: the watched match and everything open stay in order. */
  lemma OwnCommit(s: Sys, t: Txn, w: Watch)
    requires Guarded(w) && Inv(s, w) && TxnOk(s.db, t, w) && NoConflict(s.db, t)
    ensures Inv(s.(db := Commit(s.db, t)), w) && Evolves(s.db, Commit(s.db, t), w)
    ensures t.job == Release(w.m) ==> Settlement(Commit(s.db, t).ledger, w.m) != []
  {
    var db := Commit(s.db, t);
    CommitKeeps(s.db, t, w);
    forall i | 0 <= i < |s.workers| ensures WorkerOk(db, s.workers[i], w) {
      assert WorkerOk(s.db, s.workers[i], w);
      if s.workers[i].pc.InTxn? { TxnStays(s.db, db, s.workers[i].pc.t, w); }
    }
    forall i | 0 <= i < |s.inDoubt| ensures TxnOk(db, s.inDoubt[i], w) {
      TxnStays(s.db, db, s.inDoubt[i], w);
    }
  }

  class Service {
    var sys: Sys

    constructor (sys: Sys)
      ensures this.sys == sys
    {
      this.sys := sys;
    }

    /** The other workers take steps. */
    method Others(run: seq<Step>, ghost w: Watch)
      requires Guarded(w) && Inv(sys, w) && Paying(run, w)
      modifies this
      ensures sys == Exec(old(sys), run) && Inv(sys, w) && Evolves(old(sys.db), sys.db, w)
    {
      PayingIsPriced(sys, run, w);
      RunKeeps(sys, run, w);
      ghost var was := sys;
      for i := 0 to |run|
        invariant sys == Exec(was, run[..i])
      {
        ExecSnoc(was, run[..i], run[i]);
        assert run[..i + 1] == run[..i] + [run[i]];
        sys := Next(sys, run[i]);
      }
      assert run[..|run|] == run;
    }

    /** A commit by this call: it happens whole or is refused whole. */
    method TryCommit(t: Txn, ghost w: Watch) returns (ok: bool)
      requires Guarded(w) && Inv(sys, w) && TxnOk(sys.db, t, w)
      modifies this
      ensures Inv(sys, w) && Evolves(old(sys.db), sys.db, w)
      ensures ok <==> NoConflict(old(sys.db), t)
      ensures sys == if ok then old(sys).(db := Commit(old(sys.db), t)) else old(sys)
      ensures ok && t.job == Release(w.m) ==> Settlement(sys.db.ledger, w.m) != []
    {
      ok := NoConflict(sys.db, t);
      if ok {
        OwnCommit(sys, t, w);
        sys := sys.(db := Commit(sys.db, t));
      }
    }

    /** The commit was sent and its reply lost: it lands in some later step of the others, or never. */
    method LeaveInDoubt(t: Txn, ghost w: Watch)
      requires Inv(sys, w) && TxnOk(sys.db, t, w)
      modifies this
      ensures Inv(sys, w) && sys == old(sys).(inDoubt := old(sys).inDoubt + [t])
    {
      sys := sys.(inDoubt := sys.inDoubt + [t]);
    }

    /** One turn of the retry loop. */
    method Attempt(m: MatchId, a: Amounts, turn: Turn, ghost w: Watch) returns (v: Verdict)
      requires Guarded(w) && Inv(sys, w) && w.m == m && a in w.prices && Paying(turn.before, w) && Paying(turn.during, w)
      modifies this
      ensures Inv(sys, w) && Evolves(old(sys.db), sys.db, w)
      ensures v == Done ==> Settlement(sys.db.ledger, m) != []
      ensures v == Stop ==> BodyThrows(old(sys.db), Release(m)) || turn.result == OtherError
      ensures Quiet(turn) && !BodyThrows(old(sys.db), Release(m)) ==> v == Done
    {
      ghost var start := sys.db;
      Others(turn.before, w);
      ThrowsSame(start, sys.db, m);
      var session := new Session(sys.db);
      var threw := session.ReleaseBody(m, a);
      if threw {
        return Stop;
      }
      var t := session.Buffered(Release(m), a);
      ghost var snap := sys.db;
      Others(turn.during, w);
      if turn.during == [] { NothingDone(snap, sys.db, t); }
      EvolvesTrans(start, snap, sys.db, w);
      ghost var tried := sys.db;
      if turn.result == Acked {
        var committed := TryCommit(t, w);
        EvolvesTrans(start, tried, sys.db, w);
        return if committed then Done else Again;
      }
      if turn.result == CommitResult.Unknown {
        LeaveInDoubt(t, w);
      }
      return if turn.result == OtherError then Stop else Again;
    }

    /** `runInTransaction`: up to five turns. */
    method Retry(m: MatchId, a: Amounts, turns: seq<Turn>, ghost w: Watch) returns (returned: bool)
      requires Guarded(w) && Inv(sys, w) && w.m == m && a in w.prices && |turns| == 5 && PayingTurns(turns, w)
      modifies this
      ensures Inv(sys, w) && Evolves(old(sys.db), sys.db, w)
      ensures returned ==> Settlement(sys.db.ledger, m) != []
      ensures !BodyThrows(old(sys.db), Release(m)) && QuietTurn(turns) ==> returned
    {
      ghost var start := sys.db;
      var attempt := 1;
      while attempt <= MAX_RETRIES
        invariant 1 <= attempt <= MAX_RETRIES + 1
        invariant Inv(sys, w) && Evolves(start, sys.db, w)
        invariant !BodyThrows(start, Release(m)) ==> forall j :: 0 <= j < attempt - 1 ==> !Quiet(turns[j])
      {
        ghost var before := sys.db;
        assert turns[attempt - 1] in turns;
        var v := Attempt(m, a, turns[attempt - 1], w);
        EvolvesTrans(start, before, sys.db, w);
        ThrowsSame(start, before, m);
        if v == Done {
          return true;
        }
        if v == Stop {
          return false;
        }
        attempt := attempt + 1;
      }
      return false;
    }

    /**
     Whatever the others do and however commits fail, a call that returns
     normally leaves the match settled; and one quiet attempt is enough for it
     to return. `docs` is what it reads from the trip and the request.
     */
    method ReleaseFunds(m: MatchId, docs: Option<Docs>, afterCheck: seq<Step>, turns: seq<Turn>, ghost w: Watch) returns (returned: bool)
      requires m < |sys.db.matches| ==>
                 && Guarded(w) && Inv(sys, w) && w.m == m && Paying(afterCheck, w) && PayingTurns(turns, w)
                 && (docs.Some? ==> AmountsFor(docs.value, sys.db.matches[m].agreedPrice) in w.prices)
      requires |turns| == 5
      modifies this
      ensures m < |old(sys.db.matches)| ==> Inv(sys, w) && Evolves(old(sys.db), sys.db, w)
      ensures m >= |old(sys.db.matches)| ==> !returned && sys == old(sys)
      ensures returned ==> Settlement(sys.db.ledger, m) != []
      ensures returned && docs.Some? && w.prices == {AmountsFor(docs.value, old(sys.db).matches[m].agreedPrice)} ==>
                var doc := old(sys.db).matches[m];
                Stored.SettledFor(Settlement(sys.db.ledger, m), doc.carrier, doc.sender, m,
                                  docs.value.deposit, docs.value.request, doc.agreedPrice, docs.value.feePercent)
      ensures PartiesExist(old(sys.db), m) && docs.Some? && QuietTurn(turns) ==> returned
    {
      if m >= |sys.db.matches| {
        return false;
      }
      ghost var doc := sys.db.matches[m];
      if docs.Some? {
        Stored.AmountsSettle(docs.value.deposit, docs.value.request, doc.agreedPrice, docs.value.feePercent, doc.carrier, doc.sender, m);
      }
      if HasPayout(sys.db.ledger, m) {
        PayoutMeansSettled(sys.db, w);
        return true;
      }
      var agreedPrice := sys.db.matches[m].agreedPrice;
      ghost var start := sys.db;
      Others(afterCheck, w);
      if docs.None? {
        return false;
      }
      ThrowsSame(start, sys.db, m);
      ghost var priced := sys.db;
      returned := Retry(m, AmountsFor(docs.value, agreedPrice), turns, w);
      EvolvesTrans(start, priced, sys.db, w);
      assert MatchDocEvolves(start.matches[m], sys.db.matches[m]);
    }
  }
}
