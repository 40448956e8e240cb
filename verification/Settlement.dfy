/** What a release pays, from what was stored when the request was quoted or ordered. */
module Settlement {
  import opened Common
  import EscrowStore
  import EscrowRuns
  import opened Pricing

  /** The money fields of a delivery request; zero and absent both read as missing. */
  datatype Stored = Stored(quotedPrice: Option<int>, platformFee: Option<int>, totalCharge: Option<int>)

  /** The amounts `releaseFunds` computes before its transaction. */
  function AmountsOf(deposit: Option<int>, d: Stored, agreedPrice: int, feePercent: real): EscrowStore.Amounts {
    var charge := OrElse(d.totalCharge, agreedPrice);
    var fee := OrElse(d.platformFee, Round(charge as real * feePercent / 100.0));
    var payout := OrElse(d.quotedPrice, Max(charge - fee, 0));
    EscrowStore.Amounts(OrElse(deposit, 0), payout, fee, charge)
  }

  /** `createDeliveryRequest` stores all three from one quote. */
  function StoredQuote(q: Quote): Stored {
    Stored(Some(q.carrierEarning), Some(q.platformFee), Some(q.totalCharge))
  }

  /** `createDeliveryOrder` stores only a charge on a request without a quote. */
  function StoredCharge(charge: int): Stored {
    Stored(None, None, Some(charge))
  }

  /** A stored fee of zero reads as missing and is recomputed, from a charge equal to the earning: zero again. */
  lemma SettlesForQuote(q: Quote, deposit: Option<int>, agreedPrice: int, feePercent: real)
    requires q.carrierEarning > 0 && q.platformFee >= 0 && OrElse(deposit, 0) >= 0
    requires q.platformFee == PlatformFee(q.carrierEarning, feePercent) && q.totalCharge == q.carrierEarning + q.platformFee
    ensures var a := AmountsOf(deposit, StoredQuote(q), agreedPrice, feePercent);
            && a.payout == q.carrierEarning && a.fee == q.platformFee && a.charge == q.totalCharge
            && EscrowStore.Pays(a)
  {
    var c := q.carrierEarning as real;
    assert c * feePercent / 100.0 == c * (feePercent / 100.0);
  }

  /** A quoted request settles for exactly its quote, and always moves money. */
  lemma QuotedSettlement(o: Offer, p: Package, deposit: Option<int>, agreedPrice: int, feePercent: real)
    requires feePercent >= 0.0 && OrElse(deposit, 0) >= 0
    ensures var q := CalculateQuote(o, p, feePercent);
            var a := AmountsOf(deposit, StoredQuote(q), agreedPrice, feePercent);
            && a.payout == q.carrierEarning && a.fee == q.platformFee && a.charge == q.totalCharge
            && a.payout + a.fee == a.charge && EscrowStore.Pays(a)
  {
    QuoteAddsUp(o, p, feePercent);
    EarningIs(o, p, feePercent);
    SettlesForQuote(CalculateQuote(o, p, feePercent), deposit, agreedPrice, feePercent);
  }

  /** With only a charge stored, payout and fee add up to it exactly when the fee does not exceed it. */
  lemma ChargeOnlySettlement(charge: int, deposit: Option<int>, agreedPrice: int, feePercent: real)
    requires charge > 0
    ensures var a := AmountsOf(deposit, StoredCharge(charge), agreedPrice, feePercent);
            && a.charge == charge
            && (a.payout + a.fee == a.charge <==> Round(charge as real * feePercent / 100.0) <= charge)
    ensures 0.0 <= feePercent <= 100.0 ==> Round(charge as real * feePercent / 100.0) <= charge
  {
    if 0.0 <= feePercent <= 100.0 {
      ScaleMonotone(feePercent, 100.0, charge as real);
      assert charge as real * feePercent == feePercent * charge as real;
      assert charge as real * feePercent / 100.0 <= charge as real;
      RoundMonotone(charge as real * feePercent / 100.0, charge as real);
    }
  }

  /**
   A release that moves nothing can be priced: with only a charge stored and no
   deposit, exactly when the computed fee takes the whole charge.
   */
  lemma ChargeOnlyPaysIff(charge: int, deposit: Option<int>, agreedPrice: int, feePercent: real)
    requires charge > 0 && OrElse(deposit, 0) >= 0
    ensures var a := AmountsOf(deposit, StoredCharge(charge), agreedPrice, feePercent);
            EscrowStore.Pays(a) <==> OrElse(deposit, 0) > 0 || Round(charge as real * feePercent / 100.0) < charge
    ensures !EscrowStore.Pays(AmountsOf(None, StoredCharge(charge), agreedPrice, 100.0))
  {
    assert charge as real * 100.0 / 100.0 == charge as real;
    assert Round(charge as real) == charge;
  }

  /** A match created from a quote shows its earning, so whatever fixed amounts it is released at keep its releases apart. */
  lemma CreatedKeptApart(o: Offer, p: Package, feePercent: real, a: EscrowStore.Amounts)
    requires feePercent >= 0.0 && a.deposit >= 0 && a.payout >= 0
    ensures EscrowRuns.KeptApart({a}, Some(CalculateQuote(o, p, feePercent).carrierEarning))
  {
    QuoteAddsUp(o, p, feePercent);
  }

  /**
   What a settlement pays, read off the ledger: the trip's deposit back to the
   carrier, then the stored earning, or what the fee leaves of the charge; and
   the stored fee, or the rate on the charge. The charge is the stored one, or
   the agreed price when none is stored. Zero reads as missing throughout.
   */
  predicate SettledFor(rows: seq<EscrowStore.Row>, carrier: nat, sender: nat, m: nat,
                       deposit: Option<int>, d: Stored, agreedPrice: int, feePercent: real) {
    var charge := if d.totalCharge.Some? && d.totalCharge.value != 0 then d.totalCharge.value else agreedPrice;
    && |rows| == 3
    && rows[0] == EscrowStore.Row(carrier, m, EscrowStore.EscrowRelease, if deposit.Some? then deposit.value else 0)
    && rows[1].user == carrier && rows[1].matchId == m && rows[1].kind == EscrowStore.CarrierPayout
    && rows[2].user == sender && rows[2].matchId == m && rows[2].kind == EscrowStore.PlatformFee
    && (d.platformFee.Some? && d.platformFee.value != 0 ==> rows[2].amount == d.platformFee.value)
    && (d.platformFee.None? || d.platformFee.value == 0 ==>
          -0.5 <= rows[2].amount as real - charge as real * feePercent / 100.0 <= 0.5)
    && (d.quotedPrice.Some? && d.quotedPrice.value != 0 ==> rows[1].amount == d.quotedPrice.value)
    && (d.quotedPrice.None? || d.quotedPrice.value == 0 ==>
          if rows[2].amount <= charge then rows[1].amount + rows[2].amount == charge else rows[1].amount == 0)
  }

  lemma AmountsSettle(deposit: Option<int>, d: Stored, agreedPrice: int, feePercent: real, carrier: nat, sender: nat, m: nat)
    ensures SettledFor(EscrowStore.SettlementRows(carrier, sender, m, AmountsOf(deposit, d, agreedPrice, feePercent)),
                       carrier, sender, m, deposit, d, agreedPrice, feePercent)
    ensures AmountsOf(deposit, d, agreedPrice, feePercent).charge
            == if d.totalCharge.Some? && d.totalCharge.value != 0 then d.totalCharge.value else agreedPrice
  {
  }

  /**
   A match created from a quote is settled at most once in every run in which its
   trip's deposit and its request's stored amounts stay as they are, quoted or
   not, moving money or not; it is settled for exactly those amounts; and once
   any call for it has returned, it is settled.
   */
  lemma CreatedSettlesOnce(o: Offer, p: Package, createdFee: real,
                                              deposit: Option<int>, d: Stored, feePercent: real,
                                              s0: EscrowRuns.Sys, run: seq<EscrowRuns.Step>, m: nat)
    requires createdFee >= 0.0 && OrElse(deposit, 0) >= 0 && OrElse(d.quotedPrice, 0) >= 0
    requires EscrowRuns.Init(s0) && m < |s0.db.matches|
    requires s0.db.matches[m].payout == Some(CalculateQuote(o, p, createdFee).carrierEarning)
    requires EscrowRuns.PricesOf(s0, run, m) <= {AmountsOf(deposit, d, s0.db.matches[m].agreedPrice, feePercent)}
    ensures var s := EscrowRuns.Exec(s0, run);
            var rows := EscrowStore.Settlement(s.db.ledger, m);
            var doc := s0.db.matches[m];
            && (rows == [] || SettledFor(rows, doc.carrier, doc.sender, m, deposit, d, doc.agreedPrice, feePercent))
            && (forall i :: 0 <= i < |s.workers| && s.workers[i] == EscrowRuns.Worker(EscrowStore.Release(m), EscrowRuns.Returned) ==>
                  rows != [])
  {
    var a := AmountsOf(deposit, d, s0.db.matches[m].agreedPrice, feePercent);
    CreatedKeptApart(o, p, createdFee, a);
    EscrowRuns.ExactlyOncePayout(s0, run, m);
    AmountsSettle(deposit, d, s0.db.matches[m].agreedPrice, feePercent, s0.db.matches[m].carrier, s0.db.matches[m].sender, m);
    assert forall b: EscrowStore.Amounts :: (m, b) in EscrowRuns.Prices(s0, run) ==> (m, b).1 in EscrowRuns.PricesOf(s0, run, m);
  }
}
