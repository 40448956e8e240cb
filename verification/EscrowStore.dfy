/**
 The documents that escrow operations touch, under snapshot transactions with
 first-committer-wins: a transaction buffers field updates against the snapshot
 it started from, and its commit is refused when any document it writes has
 been written since.
 */
module EscrowStore {
  import opened Common

  type UserId = nat
  type MatchId = nat

  datatype User = User(balance: int, escrow: int, version: nat)

  datatype Match = Match(carrier: UserId, sender: UserId, agreedPrice: int, payout: Option<int>, version: nat)

  datatype Kind = EscrowHold | EscrowRelease | CarrierPayout | PlatformFee

  datatype Row = Row(user: UserId, matchId: MatchId, kind: Kind, amount: int)

  datatype Db = Db(users: seq<User>, matches: seq<Match>, ledger: seq<Row>)

  /** What one release pays: read from the trip and the delivery request before the transaction. */
  datatype Amounts = Amounts(deposit: int, payout: int, fee: int, charge: int)

  datatype Job =
    | Release(m: MatchId)
    | Hold(user: UserId, m: MatchId, amount: int)

  /** The `$set` a document save sends: only the modified paths. */
  datatype UserWrite = UserWrite(user: UserId, balance: Option<int>, escrow: Option<int>)

  datatype MatchWrite = MatchWrite(m: MatchId, payout: int)

  datatype Txn = Txn(snap: Db, job: Job, amounts: Amounts,
                     userWrites: seq<UserWrite>, matchWrites: seq<MatchWrite>, rows: seq<Row>)

  // ---------------------------------------------------------------- ledger

  /** The rows a settlement of match `m` has written, oldest first. */
  function Settlement(ledger: seq<Row>, m: MatchId): seq<Row> {
    if ledger == [] then []
    else
      var last := ledger[|ledger| - 1];
      Settlement(ledger[..|ledger| - 1], m) + if last.matchId == m && last.kind != EscrowHold then [last] else []
  }

  /** The idempotency query: some completed carrier payout row names the match. */
  predicate HasPayout(ledger: seq<Row>, m: MatchId) {
    exists i :: 0 <= i < |ledger| && ledger[i].matchId == m && ledger[i].kind == CarrierPayout
  }

  /** What the committed payout and deposit-release rows credit to user `u`. */
  function Earned(ledger: seq<Row>, u: UserId): int {
    if ledger == [] then 0
    else
      var last := ledger[|ledger| - 1];
      Earned(ledger[..|ledger| - 1], u)
      + if last.user == u && (last.kind == EscrowRelease || last.kind == CarrierPayout) then last.amount else 0
  }

  /** Fees collected minus amounts newly held: the platform's side of the books. */
  function FeesMinusHolds(ledger: seq<Row>): int {
    if ledger == [] then 0
    else
      var last := ledger[|ledger| - 1];
      FeesMinusHolds(ledger[..|ledger| - 1])
      + (match last.kind case PlatformFee => last.amount case EscrowHold => -last.amount case _ => 0)
  }

  /** All balances and all escrow. */
  function Wealth(users: seq<User>): int {
    if users == [] then 0
    else
      var last := users[|users| - 1];
      Wealth(users[..|users| - 1]) + last.balance + last.escrow
  }

  // ---------------------------------------------------------------- commits

  function ApplyUserWrite(users: seq<User>, w: UserWrite): (r: seq<User>)
    ensures |r| == |users|
  {
    if w.user < |users| then
      var u := users[w.user];
      users[w.user := User(w.balance.GetOr(u.balance), w.escrow.GetOr(u.escrow), u.version + 1)]
    else users
  }

  function ApplyUserWrites(users: seq<User>, ws: seq<UserWrite>): (r: seq<User>)
    ensures |r| == |users|
    decreases ws
  {
    if ws == [] then users else ApplyUserWrites(ApplyUserWrite(users, ws[0]), ws[1..])
  }

  function ApplyMatchWrites(matches: seq<Match>, ws: seq<MatchWrite>): (r: seq<Match>)
    ensures |r| == |matches|
    decreases ws
  {
    if ws == [] then matches
    else
      var w := ws[0];
      ApplyMatchWrites(
        if w.m < |matches| then
          matches[w.m := matches[w.m].(payout := Some(w.payout), version := matches[w.m].version + 1)]
        else matches,
        ws[1..])
  }

  /** First committer wins: every document written is still the one the snapshot read. */
  predicate NoConflict(db: Db, t: Txn) {
    && (forall w <- t.userWrites ::
          w.user < |db.users| && w.user < |t.snap.users| && db.users[w.user].version == t.snap.users[w.user].version)
    && (forall w <- t.matchWrites ::
          w.m < |db.matches| && w.m < |t.snap.matches| && db.matches[w.m].version == t.snap.matches[w.m].version)
  }

  function Commit(db: Db, t: Txn): Db {
    Db(ApplyUserWrites(db.users, t.userWrites), ApplyMatchWrites(db.matches, t.matchWrites), db.ledger + t.rows)
  }

  // ---------------------------------------------------------------- transaction bodies

  /** Saving a user document whose wallet was read as `before`. */
  function SaveUser(id: UserId, before: User, balance: int, escrow: int): seq<UserWrite> {
    if balance == before.balance && escrow == before.escrow then []
    else
      [UserWrite(id,
                 if balance != before.balance then Some(balance) else None,
                 if escrow != before.escrow then Some(escrow) else None)]
  }

  function SaveMatch(id: MatchId, before: Match, payout: int): seq<MatchWrite> {
    if before.payout == Some(payout) then [] else [MatchWrite(id, payout)]
  }

  /** The body throws when a document it needs is gone. */
  predicate BodyThrows(snap: Db, job: Job) {
    job.Release? &&
    (job.m >= |snap.matches| || snap.matches[job.m].carrier >= |snap.users| || snap.matches[job.m].sender >= |snap.users|)
  }

  /** What the body of `releaseFunds` buffers, computed from its snapshot. */
  function ReleaseTxn(snap: Db, m: MatchId, a: Amounts): Txn
    requires !BodyThrows(snap, Release(m))
  {
    var doc := snap.matches[m];
    var carrier, sender := snap.users[doc.carrier], snap.users[doc.sender];
    if HasPayout(snap.ledger, m) then Txn(snap, Release(m), a, [], [], [])
    else
      Txn(snap, Release(m), a,
          SaveUser(doc.carrier, carrier, carrier.balance + (a.deposit + a.payout), Max(0, carrier.escrow - a.deposit))
          + SaveUser(doc.sender, sender, sender.balance, Max(0, sender.escrow - a.charge)),
          SaveMatch(m, doc, a.payout),
          [Row(doc.carrier, m, EscrowRelease, a.deposit),
           Row(doc.carrier, m, CarrierPayout, a.payout),
           Row(doc.sender, m, PlatformFee, a.fee)])
  }

  /** What the body of `holdFunds` buffers: a ledger row and an `$inc` of the escrow. */
  function HoldTxn(snap: Db, user: UserId, m: MatchId, amount: int, a: Amounts): Txn {
    Txn(snap, Hold(user, m, amount), a,
        if user < |snap.users| then SaveUser(user, snap.users[user], snap.users[user].balance, snap.users[user].escrow + amount)
        else [],
        [],
        [Row(user, m, EscrowHold, amount)])
  }

  function Body(snap: Db, job: Job, a: Amounts): Txn
    requires !BodyThrows(snap, job)
  {
    match job
    case Release(m) => ReleaseTxn(snap, m, a)
    case Hold(user, m, amount) => HoldTxn(snap, user, m, amount, a)
  }

  // ---------------------------------------------------------------- invariants

  /** The three rows one release writes for match `m`. */
  function SettlementRows(carrier: UserId, sender: UserId, m: MatchId, a: Amounts): seq<Row> {
    [Row(carrier, m, EscrowRelease, a.deposit), Row(carrier, m, CarrierPayout, a.payout), Row(sender, m, PlatformFee, a.fee)]
  }

  predicate MatchDocEvolves(x: Match, y: Match) {
    x.carrier == y.carrier && x.sender == y.sender && (x.version < y.version || x == y)
  }

  /** Documents keep their number and their parties, and every write to one moves its version. */
  ghost predicate DocsEvolve(a: Db, b: Db) {
    && |a.users| == |b.users| && |a.matches| == |b.matches|
    && (forall u :: 0 <= u < |a.users| ==>
          a.users[u].version < b.users[u].version || a.users[u] == b.users[u])
    && (forall m :: 0 <= m < |a.matches| ==> MatchDocEvolves(a.matches[m], b.matches[m]))
  }

  /** A begun transaction: its buffer is its body on a snapshot whose documents have since evolved. */
  ghost predicate Begun(db: Db, t: Txn) {
    && DocsEvolve(t.snap, db)
    && !BodyThrows(t.snap, t.job)
    && t == Body(t.snap, t.job, t.amounts)
  }

  /** The release moves money, so it always writes the carrier's document. */
  predicate Pays(a: Amounts) {
    a.deposit + a.payout != 0
  }

  /** The document every release of a match is sure to write. */
  datatype Guard = CarrierDoc | MatchDoc

  /** One match: the payout it shows until it is settled, and the amounts its releases may be priced at. */
  datatype Watch = Watch(m: MatchId, shown: Option<int>, prices: set<Amounts>, guard: Guard)

  predicate Guarded(w: Watch) {
    match w.guard
    case CarrierDoc => forall a <- w.prices :: Pays(a)
    case MatchDoc => forall a <- w.prices :: Some(a.payout) != w.shown
  }

  /** The match is settled by exactly one release, and its document shows the payout. */
  predicate SettledAs(db: Db, m: MatchId, a: Amounts)
    requires m < |db.matches|
  {
    && Settlement(db.ledger, m) == SettlementRows(db.matches[m].carrier, db.matches[m].sender, m, a)
    && db.matches[m].payout == Some(a.payout)
  }

  /** The match is untouched by releases, or settled once at one of its prices. */
  ghost predicate MatchOk(db: Db, w: Watch) {
    && w.m < |db.matches|
    && (if Settlement(db.ledger, w.m) == [] then db.matches[w.m].payout == w.shown
        else exists a <- w.prices :: SettledAs(db, w.m, a))
  }

  /** Version of the document that guards the match. */
  function GuardVersion(db: Db, w: Watch): nat
    requires w.m < |db.matches|
  {
    match w.guard
    case CarrierDoc => if db.matches[w.m].carrier < |db.users| then db.users[db.matches[w.m].carrier].version else 0
    case MatchDoc => db.matches[w.m].version
  }

  /**
   How the store may move while a transaction is open: a settlement is written
   once, and writing it moves the version of the guarding document.
   */
  ghost predicate Evolves(a: Db, b: Db, w: Watch) {
    && DocsEvolve(a, b) && w.m < |a.matches|
    && ((Settlement(a.ledger, w.m) == Settlement(b.ledger, w.m) && a.matches[w.m].payout == b.matches[w.m].payout)
        || (Settlement(a.ledger, w.m) == [] && GuardVersion(a, w) < GuardVersion(b, w)))
  }

  /** An open transaction, seen from the match: its snapshot was in order, and a release of the match is at one of its prices. */
  ghost predicate TxnOk(db: Db, t: Txn, w: Watch) {
    && Begun(db, t) && MatchOk(t.snap, w) && Evolves(t.snap, db, w)
    && (t.job == Release(w.m) ==> t.amounts in w.prices)
  }

  // ---------------------------------------------------------------- lemmas on the ledger

  lemma {:induction false} SettlementConcat(l: seq<Row>, k: seq<Row>, m: MatchId)
    ensures Settlement(l + k, m) == Settlement(l, m) + Settlement(k, m)
  {
    if k == [] {
      assert l + k == l;
    } else {
      var lk := l + k;
      assert lk[..|lk| - 1] == l + k[..|k| - 1];
      SettlementConcat(l, k[..|k| - 1], m);
    }
  }

  lemma {:induction false} EarnedConcat(l: seq<Row>, k: seq<Row>, u: UserId)
    ensures Earned(l + k, u) == Earned(l, u) + Earned(k, u)
  {
    if k == [] {
      assert l + k == l;
    } else {
      var lk := l + k;
      assert lk[..|lk| - 1] == l + k[..|k| - 1];
      EarnedConcat(l, k[..|k| - 1], u);
    }
  }

  lemma {:induction false} FeesConcat(l: seq<Row>, k: seq<Row>)
    ensures FeesMinusHolds(l + k) == FeesMinusHolds(l) + FeesMinusHolds(k)
  {
    if k == [] {
      assert l + k == l;
    } else {
      var lk := l + k;
      assert lk[..|lk| - 1] == l + k[..|k| - 1];
      FeesConcat(l, k[..|k| - 1]);
    }
  }

  lemma {:induction false} SettlementRowsOf(l: seq<Row>, m: MatchId)
    ensures forall r <- Settlement(l, m) :: r.matchId == m
  {
    if l != [] {
      SettlementRowsOf(l[..|l| - 1], m);
    }
  }

  /** The query finds a payout row exactly when some settlement row of the match is one. */
  lemma {:induction false} HasPayoutInSettlement(l: seq<Row>, m: MatchId)
    ensures HasPayout(l, m) <==> exists r :: r in Settlement(l, m) && r.kind == CarrierPayout
  {
    if l != [] {
      var front, last := l[..|l| - 1], l[|l| - 1];
      HasPayoutInSettlement(front, m);
      if HasPayout(l, m) {
        var i :| 0 <= i < |l| && l[i].matchId == m && l[i].kind == CarrierPayout;
        if i < |l| - 1 {
          assert front[i] == l[i];
        } else {
          assert last in Settlement(l, m);
        }
      }
      if r :| r in Settlement(l, m) && r.kind == CarrierPayout {
        if r in Settlement(front, m) {
          var i :| 0 <= i < |front| && front[i].matchId == m && front[i].kind == CarrierPayout;
          assert l[i] == front[i];
        } else {
          SettlementRowsOf(l, m);
          assert r == last;
        }
      }
    }
  }

  /** On a match in order the idempotency query says exactly whether it is settled. */
  lemma PayoutMeansSettled(db: Db, w: Watch)
    requires MatchOk(db, w)
    ensures HasPayout(db.ledger, w.m) <==> Settlement(db.ledger, w.m) != []
  {
    HasPayoutInSettlement(db.ledger, w.m);
    if Settlement(db.ledger, w.m) != [] {
      var a :| a in w.prices && SettledAs(db, w.m, a);
      assert Settlement(db.ledger, w.m)[1].kind == CarrierPayout;
    }
  }

  lemma OneRow(r: Row, m: MatchId, u: UserId)
    ensures Settlement([r], m) == if r.matchId == m && r.kind != EscrowHold then [r] else []
    ensures Earned([r], u) == if r.user == u && (r.kind == EscrowRelease || r.kind == CarrierPayout) then r.amount else 0
    ensures FeesMinusHolds([r]) == match r.kind case PlatformFee => r.amount case EscrowHold => -r.amount case _ => 0
  {
    assert [r][..0] == [];
  }

  lemma ThreeRows(x: Row, y: Row, z: Row, m: MatchId, u: UserId)
    requires x.matchId == y.matchId == z.matchId
    requires x.kind == EscrowRelease && y.kind == CarrierPayout && z.kind == PlatformFee
    ensures Settlement([x, y, z], m) == if x.matchId == m then [x, y, z] else []
    ensures Earned([x, y, z], u) == (if x.user == u then x.amount else 0) + (if y.user == u then y.amount else 0)
    ensures FeesMinusHolds([x, y, z]) == z.amount
  {
    OneRow(x, m, u);
    OneRow(y, m, u);
    OneRow(z, m, u);
    assert [x, y, z] == [x] + [y] + [z];
    SettlementConcat([x], [y], m);
    SettlementConcat([x] + [y], [z], m);
    EarnedConcat([x], [y], u);
    EarnedConcat([x] + [y], [z], u);
    FeesConcat([x], [y]);
    FeesConcat([x] + [y], [z]);
  }

  lemma DocsTrans(a: Db, b: Db, c: Db)
    requires DocsEvolve(a, b) && DocsEvolve(b, c)
    ensures DocsEvolve(a, c)
  {
    forall m | 0 <= m < |a.matches| ensures MatchDocEvolves(a.matches[m], c.matches[m]) {
      assert MatchDocEvolves(a.matches[m], b.matches[m]) && MatchDocEvolves(b.matches[m], c.matches[m]);
    }
  }

  lemma GuardGrows(a: Db, b: Db, w: Watch)
    requires DocsEvolve(a, b) && w.m < |a.matches|
    ensures GuardVersion(a, w) <= GuardVersion(b, w)
  {
    assert MatchDocEvolves(a.matches[w.m], b.matches[w.m]);
  }

  lemma EvolvesTrans(a: Db, b: Db, c: Db, w: Watch)
    requires Evolves(a, b, w) && Evolves(b, c, w)
    ensures Evolves(a, c, w)
  {
    DocsTrans(a, b, c);
    GuardGrows(a, b, w);
    GuardGrows(b, c, w);
  }

  // ---------------------------------------------------------------- what a commit does

  lemma {:induction false} UserWritesEvolve(users: seq<User>, ws: seq<UserWrite>)
    ensures forall u :: 0 <= u < |users| ==>
              users[u].version < ApplyUserWrites(users, ws)[u].version || users[u] == ApplyUserWrites(users, ws)[u]
    decreases |ws|
  {
    if ws != [] {
      UserWritesEvolve(ApplyUserWrite(users, ws[0]), ws[1..]);
    }
  }

  lemma {:induction false} MatchWritesEvolve(matches: seq<Match>, ws: seq<MatchWrite>)
    ensures forall m :: 0 <= m < |matches| ==> MatchDocEvolves(matches[m], ApplyMatchWrites(matches, ws)[m])
    decreases |ws|
  {
    if ws != [] {
      var w := ws[0];
      MatchWritesEvolve(
        if w.m < |matches| then matches[w.m := matches[w.m].(payout := Some(w.payout), version := matches[w.m].version + 1)]
        else matches,
        ws[1..]);
    }
  }

  /** Whatever a transaction writes, its commit moves the version of every document it touches. */
  lemma CommitDocs(db: Db, t: Txn)
    ensures DocsEvolve(db, Commit(db, t))
  {
    UserWritesEvolve(db.users, t.userWrites);
    MatchWritesEvolve(db.matches, t.matchWrites);
  }

  lemma OneWrite(users: seq<User>, w: UserWrite)
    ensures ApplyUserWrites(users, [w]) == ApplyUserWrite(users, w)
  {
    assert [w][1..] == [];
  }

  /** A hold that commits adds its amount to the escrow and nothing else. */
  lemma HoldCommit(db: Db, t: Txn)
    requires Begun(db, t) && NoConflict(db, t) && t.job.Hold?
    ensures forall u: UserId :: u < |db.users| ==>
              var v := Commit(db, t).users[u];
              && v.balance == db.users[u].balance
              && v.escrow == db.users[u].escrow + if u == t.job.user then t.job.amount else 0
    ensures Commit(db, t).matches == db.matches
    ensures forall m: MatchId :: Settlement(Commit(db, t).ledger, m) == Settlement(db.ledger, m)
    ensures forall u: UserId :: Earned(Commit(db, t).ledger, u) == Earned(db.ledger, u)
  {
    var after := Commit(db, t);
    var row := t.rows[0];
    forall m: MatchId ensures Settlement(after.ledger, m) == Settlement(db.ledger, m) {
      SettlementConcat(db.ledger, [row], m);
      assert [row][..0] == [];
    }
    forall u: UserId ensures Earned(after.ledger, u) == Earned(db.ledger, u) {
      EarnedConcat(db.ledger, [row], u);
      assert [row][..0] == [];
    }
    if t.userWrites != [] {
      assert t.userWrites[0] in t.userWrites;
      OneWrite(db.users, t.userWrites[0]);
      assert t.userWrites == [t.userWrites[0]];
    }
  }

  /** A release that found the payout row already there commits nothing. */
  lemma IdleCommit(db: Db, t: Txn)
    requires Begun(db, t) && t.job.Release? && HasPayout(t.snap.ledger, t.job.m)
    ensures Commit(db, t) == db
  {
    assert db.ledger + [] == db.ledger;
  }

  /** How an escrow of `held` moves when `due` is taken out of it and it may not go below zero. */
  function Taken(held: int, due: int): int {
    Max(0, held - due) - held
  }

  lemma {:induction false} WritesConcat(users: seq<User>, v: seq<UserWrite>, w: seq<UserWrite>)
    ensures ApplyUserWrites(users, v + w) == ApplyUserWrites(ApplyUserWrites(users, v), w)
    decreases |v|
  {
    if v == [] {
      assert v + w == w;
    } else {
      assert (v + w)[1..] == v[1..] + w;
      WritesConcat(ApplyUserWrite(users, v[0]), v[1..], w);
    }
  }

  /** What one save does to the live users. */
  lemma {:induction false} SavedUser(users: seq<User>, id: UserId, read: User, balance: int, escrow: int)
    requires id < |users|
    ensures ApplyUserWrites(users, SaveUser(id, read, balance, escrow))
            == if balance == read.balance && escrow == read.escrow then users
               else users[id := User(if balance != read.balance then balance else users[id].balance,
                                     if escrow != read.escrow then escrow else users[id].escrow, users[id].version + 1)]
  {
    var ws := SaveUser(id, read, balance, escrow);
    if ws != [] { OneWrite(users, ws[0]); }
  }

  function CarrierSave(t: Txn): seq<UserWrite>
    requires t.job.Release? && !BodyThrows(t.snap, t.job)
  {
    var id, a := t.snap.matches[t.job.m].carrier, t.amounts;
    var read := t.snap.users[id];
    SaveUser(id, read, read.balance + (a.deposit + a.payout), Max(0, read.escrow - a.deposit))
  }

  function SenderSave(t: Txn): seq<UserWrite>
    requires t.job.Release? && !BodyThrows(t.snap, t.job)
  {
    var id, a := t.snap.matches[t.job.m].sender, t.amounts;
    var read := t.snap.users[id];
    SaveUser(id, read, read.balance, Max(0, read.escrow - a.charge))
  }

  /** The carrier is saved first, then the sender; each save that writes has passed its version check. */
  lemma TwoSaves(db: Db, t: Txn)
    requires Begun(db, t) && NoConflict(db, t) && t.job.Release? && !HasPayout(t.snap.ledger, t.job.m)
    ensures var doc := t.snap.matches[t.job.m];
            && Commit(db, t).users == ApplyUserWrites(ApplyUserWrites(db.users, CarrierSave(t)), SenderSave(t))
            && (CarrierSave(t) != [] ==> db.users[doc.carrier] == t.snap.users[doc.carrier])
            && (SenderSave(t) != [] ==> db.users[doc.sender] == t.snap.users[doc.sender])
  {
    assert t.userWrites == CarrierSave(t) + SenderSave(t);
    WritesConcat(db.users, CarrierSave(t), SenderSave(t));
    if CarrierSave(t) != [] { assert CarrierSave(t)[0] in t.userWrites; }
    if SenderSave(t) != [] { assert SenderSave(t)[0] in t.userWrites; }
  }

  /** The users after both saves of a release, field by field. */
  lemma ReleaseUsers(db: Db, t: Txn, u: UserId)
    requires Begun(db, t) && NoConflict(db, t) && t.job.Release? && !HasPayout(t.snap.ledger, t.job.m)
    requires u < |db.users|
    ensures var doc, a, x, v := t.snap.matches[t.job.m], t.amounts, db.users[u], Commit(db, t).users[u];
            && v.balance == x.balance + (if u == doc.carrier then a.deposit + a.payout else 0)
            && (u == doc.carrier && u != doc.sender ==> v.escrow == x.escrow + Taken(t.snap.users[u].escrow, a.deposit))
            && (u == doc.sender && u != doc.carrier ==> v.escrow == x.escrow + Taken(t.snap.users[u].escrow, a.charge))
            && (u != doc.carrier && u != doc.sender ==> v == x)
            && (x.version < v.version || v == x)
            && (u == doc.carrier && Pays(a) ==> x.version < v.version)
  {
    TwoSaves(db, t);
    var doc, a := t.snap.matches[t.job.m], t.amounts;
    var c, s := t.snap.users[doc.carrier], t.snap.users[doc.sender];
    SavedUser(db.users, doc.carrier, c, c.balance + (a.deposit + a.payout), Max(0, c.escrow - a.deposit));
    var mid := ApplyUserWrites(db.users, CarrierSave(t));
    SavedUser(mid, doc.sender, s, s.balance, Max(0, s.escrow - a.charge));
  }

  function ReleaseMatches(db: Db, t: Txn): seq<Match>
    requires t.job.Release? && t.job.m < |db.matches| && t.job.m < |t.snap.matches|
  {
    var m, doc := t.job.m, t.snap.matches[t.job.m];
    if doc.payout == Some(t.amounts.payout) then db.matches
    else db.matches[m := db.matches[m].(payout := Some(t.amounts.payout), version := db.matches[m].version + 1)]
  }

  lemma MatchesAfterRelease(db: Db, t: Txn)
    requires Begun(db, t) && NoConflict(db, t) && t.job.Release? && !HasPayout(t.snap.ledger, t.job.m)
    ensures Commit(db, t).matches == ReleaseMatches(db, t)
  {
    var doc := t.snap.matches[t.job.m];
    if doc.payout != Some(t.amounts.payout) {
      var w := MatchWrite(t.job.m, t.amounts.payout);
      assert t.matchWrites == [w] && [w][1..] == [];
      assert w in t.matchWrites;
      var m2 := db.matches[w.m := db.matches[w.m].(payout := Some(w.payout), version := db.matches[w.m].version + 1)];
      assert ApplyMatchWrites(db.matches, [w]) == ApplyMatchWrites(m2, []);
    }
  }

  /** The three rows of a release are added to its own match's settlement and to no other. */
  lemma ReleaseLedger(db: Db, t: Txn)
    requires Begun(db, t) && t.job.Release? && !HasPayout(t.snap.ledger, t.job.m)
    ensures forall k: MatchId ::
              Settlement(Commit(db, t).ledger, k) == Settlement(db.ledger, k) + if k == t.job.m then t.rows else []
  {
    forall k: MatchId
      ensures Settlement(Commit(db, t).ledger, k) == Settlement(db.ledger, k) + if k == t.job.m then t.rows else []
    {
      SettlementConcat(db.ledger, t.rows, k);
      ThreeRows(t.rows[0], t.rows[1], t.rows[2], k, 0);
    }
  }

  /**
   First committer wins, and every release of the match writes the guarding
   document: so no other release has committed since the snapshot was taken.
   */
  lemma StillUnsettled(db: Db, t: Txn, w: Watch)
    requires Guarded(w) && TxnOk(db, t, w) && NoConflict(db, t)
    requires t.job == Release(w.m) && !HasPayout(t.snap.ledger, w.m)
    ensures Settlement(db.ledger, w.m) == [] && db.matches[w.m].payout == t.snap.matches[w.m].payout == w.shown
  {
    PayoutMeansSettled(t.snap, w);
    var doc := t.snap.matches[w.m];
    assert MatchDocEvolves(doc, db.matches[w.m]);
    match w.guard
    case CarrierDoc => assert t.userWrites[0].user == doc.carrier && t.userWrites[0] in t.userWrites;
    case MatchDoc => assert t.matchWrites == [MatchWrite(w.m, t.amounts.payout)] && t.matchWrites[0] in t.matchWrites;
  }

  /** Such a commit settles the match, once, at the price it was given, and moves the guarding document. */
  lemma ReleaseCommit(db: Db, t: Txn, w: Watch)
    requires Guarded(w) && MatchOk(db, w) && TxnOk(db, t, w) && NoConflict(db, t)
    requires t.job == Release(w.m) && !HasPayout(t.snap.ledger, w.m)
    ensures w.m < |Commit(db, t).matches| && SettledAs(Commit(db, t), w.m, t.amounts)
    ensures MatchOk(Commit(db, t), w) && Evolves(db, Commit(db, t), w)
  {
    var after := Commit(db, t);
    StillUnsettled(db, t, w);
    MatchesAfterRelease(db, t);
    ReleaseLedger(db, t);
    CommitDocs(db, t);
    assert MatchDocEvolves(t.snap.matches[w.m], db.matches[w.m]) && MatchDocEvolves(db.matches[w.m], after.matches[w.m]);
    if w.guard.CarrierDoc? { ReleaseUsers(db, t, db.matches[w.m].carrier); }
  }

  /** A transaction on another match, or a hold, leaves the watched match as it was. */
  lemma OtherCommit(db: Db, t: Txn, w: Watch)
    requires Begun(db, t) && NoConflict(db, t) && t.job != Release(w.m) && w.m < |db.matches|
    ensures w.m < |Commit(db, t).matches| && Commit(db, t).matches[w.m] == db.matches[w.m]
    ensures Settlement(Commit(db, t).ledger, w.m) == Settlement(db.ledger, w.m)
  {
    if t.job.Hold? {
      HoldCommit(db, t);
    } else if HasPayout(t.snap.ledger, t.job.m) {
      IdleCommit(db, t);
    } else {
      MatchesAfterRelease(db, t);
      ReleaseLedger(db, t);
    }
  }

  /** Whatever commits, the watched match stays in order; and it is settled once a release of it has committed. */
  lemma CommitKeeps(db: Db, t: Txn, w: Watch)
    requires Guarded(w) && MatchOk(db, w) && TxnOk(db, t, w) && NoConflict(db, t)
    ensures MatchOk(Commit(db, t), w) && Evolves(db, Commit(db, t), w)
    ensures t.job == Release(w.m) ==> Settlement(Commit(db, t).ledger, w.m) != []
  {
    CommitDocs(db, t);
    if t.job != Release(w.m) {
      OtherCommit(db, t, w);
      if Settlement(db.ledger, w.m) != [] {
        var a :| a in w.prices && SettledAs(db, w.m, a);
        assert SettledAs(Commit(db, t), w.m, a);
      }
    } else if HasPayout(t.snap.ledger, w.m) {
      IdleCommit(db, t);
      PayoutMeansSettled(t.snap, w);
    } else {
      ReleaseCommit(db, t, w);
    }
  }

  // ---------------------------------------------------------------- the books

  /** No lost update: the balance moves by exactly what the committed rows credit. */
  lemma BalanceCommit(db: Db, t: Txn, u: UserId)
    requires Begun(db, t) && NoConflict(db, t) && u < |db.users|
    ensures Commit(db, t).users[u].balance - db.users[u].balance == Earned(Commit(db, t).ledger, u) - Earned(db.ledger, u)
  {
    if t.job.Hold? {
      HoldCommit(db, t);
    } else if HasPayout(t.snap.ledger, t.job.m) {
      IdleCommit(db, t);
    } else {
      ReleaseUsers(db, t, u);
      EarnedConcat(db.ledger, t.rows, u);
      ThreeRows(t.rows[0], t.rows[1], t.rows[2], 0, u);
    }
  }

  /** The escrows the snapshot shows cover the release, and its amounts balance. */
  predicate Covered(t: Txn) {
    match t.job
    case Hold(user, _, _) => user < |t.snap.users|
    case Release(m) =>
      && m < |t.snap.matches|
      && var doc := t.snap.matches[m];
      && doc.carrier < |t.snap.users| && doc.sender < |t.snap.users| && doc.carrier != doc.sender
      && t.amounts.payout + t.amounts.fee == t.amounts.charge
      && t.snap.users[doc.carrier].escrow >= t.amounts.deposit >= 0
      && t.snap.users[doc.sender].escrow >= t.amounts.charge >= 0
  }

  lemma {:induction false} WealthUpdate(users: seq<User>, i: nat, u: User)
    requires i < |users|
    ensures Wealth(users[i := u]) == Wealth(users) + (u.balance + u.escrow) - (users[i].balance + users[i].escrow)
  {
    var n, after := |users| - 1, users[i := u];
    if i < n {
      WealthUpdate(users[..n], i, u);
      assert after[..n] == users[..n][i := u];
    } else {
      assert after[..n] == users[..n];
    }
  }

  /** How much money the transaction makes when it commits: what its release pays out beyond what the escrows held. */
  function Drift(t: Txn): int
    requires !BodyThrows(t.snap, t.job)
  {
    match t.job
    case Hold(user, _, amount) => if user < |t.snap.users| then 0 else -amount
    case Release(m) =>
      if HasPayout(t.snap.ledger, m) then 0
      else
        var doc, a := t.snap.matches[m], t.amounts;
        (Taken(t.snap.users[doc.carrier].escrow, a.deposit) + a.deposit)
        + (Taken(t.snap.users[doc.sender].escrow, a.charge) + a.charge)
        + (a.payout + a.fee - a.charge)
  }

  /** The carrier of a match is never its sender. */
  predicate DistinctParties(db: Db) {
    forall i :: 0 <= i < |db.matches| ==> db.matches[i].carrier != db.matches[i].sender
  }

  /** With amounts that add up, a release never loses money, and makes none exactly when both escrows cover it. */
  lemma DriftZeroIff(t: Txn)
    requires t.job.Release? && !BodyThrows(t.snap, t.job) && !HasPayout(t.snap.ledger, t.job.m)
    requires t.amounts.deposit >= 0 && t.amounts.charge >= 0 && t.amounts.payout + t.amounts.fee == t.amounts.charge
    ensures Drift(t) >= 0
    ensures var doc := t.snap.matches[t.job.m];
            Drift(t) == 0 <==> t.snap.users[doc.carrier].escrow >= t.amounts.deposit
                               && t.snap.users[doc.sender].escrow >= t.amounts.charge
  {
  }

  /** What all balances, escrows and fees, less the amounts newly held, add up to. */
  function Books(db: Db): int {
    Wealth(db.users) + FeesMinusHolds(db.ledger)
  }

  lemma HoldBooks(db: Db, t: Txn)
    requires Begun(db, t) && NoConflict(db, t) && t.job.Hold?
    ensures Wealth(Commit(db, t).users) + FeesMinusHolds(t.rows) == Wealth(db.users) + Drift(t)
  {
    var after, u := Commit(db, t), t.job.user;
    HoldCommit(db, t);
    assert t.rows[..0] == [];
    if t.userWrites == [] {
      assert after.users == db.users;
    } else {
      OneWrite(db.users, t.userWrites[0]);
      assert t.userWrites == [t.userWrites[0]];
      assert after.users == db.users[u := after.users[u]];
      WealthUpdate(db.users, u, after.users[u]);
    }
  }

  lemma ReleaseBooks(db: Db, t: Txn)
    requires Begun(db, t) && NoConflict(db, t)
    requires t.job.Release? && !HasPayout(t.snap.ledger, t.job.m)
    requires t.snap.matches[t.job.m].carrier != t.snap.matches[t.job.m].sender
    ensures Wealth(Commit(db, t).users) + FeesMinusHolds(t.rows) == Wealth(db.users) + Drift(t)
  {
    var doc, after := t.snap.matches[t.job.m], Commit(db, t);
    var c, s := doc.carrier, doc.sender;
    ThreeRows(t.rows[0], t.rows[1], t.rows[2], 0, 0);
    var mid := db.users[c := after.users[c]];
    forall u | 0 <= u < |db.users| ensures after.users[u] == mid[s := after.users[s]][u] {
      ReleaseUsers(db, t, u);
    }
    assert after.users == mid[s := after.users[s]];
    WealthUpdate(db.users, c, after.users[c]);
    WealthUpdate(mid, s, after.users[s]);
    ReleaseUsers(db, t, c);
    ReleaseUsers(db, t, s);
  }

  /** A commit moves the books by its drift, whatever has been committed since its snapshot. */
  lemma BooksCommit(db: Db, t: Txn)
    requires Begun(db, t) && NoConflict(db, t)
    requires t.job.Release? ==> t.snap.matches[t.job.m].carrier != t.snap.matches[t.job.m].sender
    ensures Books(Commit(db, t)) == Books(db) + Drift(t)
  {
    FeesConcat(db.ledger, t.rows);
    if t.job.Hold? {
      HoldBooks(db, t);
    } else if HasPayout(t.snap.ledger, t.job.m) {
      IdleCommit(db, t);
    } else {
      ReleaseBooks(db, t);
    }
  }

  /** A covered commit makes no money and loses none. */
  lemma CoveredCommit(db: Db, t: Txn)
    requires Begun(db, t) && NoConflict(db, t) && Covered(t)
    ensures Books(Commit(db, t)) == Books(db)
  {
    BooksCommit(db, t);
    if t.job.Release? && !HasPayout(t.snap.ledger, t.job.m) { DriftZeroIff(t); }
  }
}
