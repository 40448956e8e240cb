/** Earnings projections: the greedy fill of a trip's capacity, and the three rate tiers over it. */
module RateTiers {
  import opened Common
  import opened Pricing

  datatype Tier = Tier(ratePerKg: real, expectedPackages: nat, occupiedKg: real, carrierPayout: int, platformFee: int, senderCharge: int,
                       payoutPerKg: int)

  function MinReal(x: real, y: real): real {
    if x <= y then x else y
  }

  function Clamp(value: real, low: real, high: real): real {
    MinReal(MaxReal(value, low), high)
  }

  /** Rounds to a multiple of ten, at least ten. */
  function RoundToTen(value: real): real {
    MaxReal(10.0, Round(value / 10.0) as real * 10.0)
  }

  function RecommendedRate(value: real): real {
    Clamp(RoundToTen(value), 30.0, 500.0)
  }

  function FastRate(recommended: real): real {
    Clamp(RoundToTen(recommended * 0.9), 20.0, 500.0)
  }

  function PremiumRate(recommended: real): real {
    Clamp(RoundToTen(recommended * 1.18), 20.0, 500.0)
  }

  // ---------------------------------------------------------------- the greedy fill

  function WeightOf(p: Package): real {
    p.weightKg.GetOr(0.0)
  }

  predicate NoNegativeWeights(requests: seq<Package>) {
    forall p <- requests :: WeightOf(p) >= 0.0
  }

  /** Capacity left after considering the first `k` requests in order. */
  function Left(requests: seq<Package>, capacity: real, k: nat): real
    requires k <= |requests|
  {
    if k == 0 then capacity
    else
      var before := Left(requests, capacity, k - 1);
      if WeightOf(requests[k - 1]) <= before then before - WeightOf(requests[k - 1]) else before
  }

  predicate Takes(requests: seq<Package>, capacity: real, k: nat)
    requires k < |requests|
  {
    WeightOf(requests[k]) <= Left(requests, capacity, k)
  }

  /** The requests taken among the first `k`, in order. */
  function Taken(requests: seq<Package>, capacity: real, k: nat): seq<Package>
    requires k <= |requests|
  {
    if k == 0 then []
    else Taken(requests, capacity, k - 1) + if Takes(requests, capacity, k - 1) then [requests[k - 1]] else []
  }

  function TotalWeight(ps: seq<Package>): real {
    if ps == [] then 0.0 else TotalWeight(ps[..|ps| - 1]) + WeightOf(ps[|ps| - 1])
  }

  function OneDecimal(x: real): real {
    Round(x * 10.0) as real / 10.0
  }

  function StandInKg(capacity: real, utilization: real): real {
    OneDecimal(Clamp(capacity * utilization, 0.5, capacity))
  }

  /** The stand-in parcel when no request fits: its weight is rounded to one decimal. */
  function Projected(capacity: real, utilization: real, category: Category, window: (real, real)): Package {
    Package(Some(StandInKg(capacity, utilization)), Some(category), category == Fragile, None, Some(window.0), Some(window.1))
  }

  function Selection(requests: seq<Package>, capacity: real, utilization: real, category: Category, window: (real, real)): seq<Package> {
    var taken := Taken(requests, capacity, |requests|);
    if taken == [] then [Projected(capacity, utilization, category, window)] else taken
  }

  function Rated(ratePerKg: real): Offer {
    Offer(Some(ratePerKg), None, None)
  }

  function PayoutOf(ps: seq<Package>, rate: real, feePercent: real): int {
    if ps == [] then 0
    else PayoutOf(ps[..|ps| - 1], rate, feePercent) + CalculateQuote(Rated(rate), ps[|ps| - 1], feePercent).carrierEarning
  }

  function FeeOf(ps: seq<Package>, rate: real, feePercent: real): int {
    if ps == [] then 0
    else FeeOf(ps[..|ps| - 1], rate, feePercent) + CalculateQuote(Rated(rate), ps[|ps| - 1], feePercent).platformFee
  }

  /** A parcel of the wanted weight, held between half a kilo and the capacity, to the nearest hundred grams. */
  predicate IsStandIn(p: Package, wanted: real, capacity: real, c: Category, window: (real, real)) {
    && p == Package(p.weightKg, Some(c), c == Fragile, None, Some(window.0), Some(window.1))
    && p.weightKg.Some?
    && var kg := if capacity < 0.5 || wanted > capacity then capacity else if wanted < 0.5 then 0.5 else wanted;
       -0.05 <= p.weightKg.value - kg <= 0.05
  }

  /** Some of the requests, or one parcel of the given share of the capacity. */
  predicate IsProjection(selected: seq<Package>, requests: seq<Package>, wanted: real, capacity: real, c: Category, window: (real, real)) {
    || (selected != [] && forall p <- selected :: p in requests)
    || (|selected| == 1 && IsStandIn(selected[0], wanted, capacity, c, window))
  }

  lemma StandInIs(wanted: real, capacity: real, c: Category, window: (real, real))
    ensures IsStandIn(Package(Some(OneDecimal(Clamp(wanted, 0.5, capacity))), Some(c), c == Fragile, None, Some(window.0), Some(window.1)),
                      wanted, capacity, c, window)
  {
    RoundIsNear(Clamp(wanted, 0.5, capacity) * 10.0);
  }

  lemma {:induction false} TakenAreRequests(requests: seq<Package>, capacity: real, k: nat)
    requires k <= |requests|
    ensures forall p <- Taken(requests, capacity, k) :: p in requests
    decreases k
  {
    if k > 0 {
      TakenAreRequests(requests, capacity, k - 1);
    }
  }

  lemma SelectionIsProjection(requests: seq<Package>, capacity: real, utilization: real, c: Category, window: (real, real))
    ensures IsProjection(Selection(requests, capacity, utilization, c, window), requests, capacity * utilization, capacity, c, window)
  {
    TakenAreRequests(requests, capacity, |requests|);
    StandInIs(capacity * utilization, capacity, c, window);
  }

  method ProjectTier(ratePerKg: real, requests: seq<Package>, capacity: real, categories: seq<Category>,
                     utilization: real, window: (real, real), feePercent: real) returns (tier: Tier, selected: seq<Package>)
    ensures selected == Selection(requests, capacity, utilization, if categories == [] then Documents else categories[0], window)
    ensures IsProjection(selected, requests, capacity * utilization, capacity, if categories == [] then Documents else categories[0], window)
    ensures tier.ratePerKg == ratePerKg && tier.expectedPackages == |selected|
    ensures tier.carrierPayout == PayoutOf(selected, ratePerKg, feePercent)
    ensures tier.platformFee == FeeOf(selected, ratePerKg, feePercent)
    ensures tier.senderCharge == tier.carrierPayout + tier.platformFee
    ensures tier.occupiedKg == OneDecimal(TotalWeight(selected))
    ensures TotalWeight(selected) > 0.0 ==> var exact := tier.carrierPayout as real / TotalWeight(selected);
              -0.5 <= exact - tier.payoutPerKg as real <= 0.5
    ensures TotalWeight(selected) <= 0.0 ==> tier.payoutPerKg == 0
  {
    var remaining := capacity;
    selected := [];
    for k := 0 to |requests|
      invariant remaining == Left(requests, capacity, k) && selected == Taken(requests, capacity, k)
    {
      if WeightOf(requests[k]) <= remaining {
        selected := selected + [requests[k]];
        remaining := remaining - WeightOf(requests[k]);
      }
    }
    if selected == [] {
      var category := if categories == [] then Documents else categories[0];
      selected := [Projected(capacity, utilization, category, window)];
    }
    SelectionIsProjection(requests, capacity, utilization, if categories == [] then Documents else categories[0], window);
    var payout, fee, charge, occupied := 0, 0, 0, 0.0;
    for k := 0 to |selected|
      invariant occupied == TotalWeight(selected[..k])
      invariant payout == PayoutOf(selected[..k], ratePerKg, feePercent)
      invariant fee == FeeOf(selected[..k], ratePerKg, feePercent)
      invariant charge == payout + fee
    {
      assert selected[..k + 1][..k] == selected[..k];
      var quote := CalculateQuote(Rated(ratePerKg), selected[k], feePercent);
      payout, fee, charge := payout + quote.carrierEarning, fee + quote.platformFee, charge + quote.totalCharge;
      occupied := occupied + WeightOf(selected[k]);
    }
    assert selected[..|selected|] == selected;
    var perKg := if occupied > 0.0 then Round(payout as real / occupied) else 0;
    tier := Tier(ratePerKg, |selected|, OneDecimal(occupied), payout, fee, charge, perKg);
  }

  // ---------------------------------------------------------------- lemmas

  lemma {:induction false} LeftShrinks(requests: seq<Package>, capacity: real, j: nat, k: nat)
    requires NoNegativeWeights(requests) && j <= k <= |requests|
    ensures Left(requests, capacity, k) <= Left(requests, capacity, j)
    decreases k
  {
    if j < k {
      assert requests[k - 1] in requests;
      LeftShrinks(requests, capacity, j, k - 1);
    }
  }

  lemma {:induction false} TakenWeight(requests: seq<Package>, capacity: real, k: nat)
    requires k <= |requests| && capacity >= 0.0
    ensures TotalWeight(Taken(requests, capacity, k)) == capacity - Left(requests, capacity, k)
    ensures Left(requests, capacity, k) >= 0.0
    decreases k
  {
    if k > 0 {
      TakenWeight(requests, capacity, k - 1);
      var before, now := Taken(requests, capacity, k - 1), Taken(requests, capacity, k);
      if Takes(requests, capacity, k - 1) {
        assert now[..|now| - 1] == before;
      } else {
        assert now == before;
      }
    }
  }

  /** The fill never exceeds the capacity, and no request it passed over would fit in what is left. */
  lemma GreedyFill(requests: seq<Package>, capacity: real)
    requires NoNegativeWeights(requests) && capacity >= 0.0
    ensures TotalWeight(Taken(requests, capacity, |requests|)) <= capacity
    ensures forall k :: 0 <= k < |requests| && !Takes(requests, capacity, k) ==>
              WeightOf(requests[k]) > capacity - TotalWeight(Taken(requests, capacity, |requests|))
  {
    TakenWeight(requests, capacity, |requests|);
    forall k | 0 <= k < |requests| && !Takes(requests, capacity, k)
      ensures WeightOf(requests[k]) > capacity - TotalWeight(Taken(requests, capacity, |requests|))
    {
      LeftShrinks(requests, capacity, k, |requests|);
    }
  }

  lemma {:induction false} TakenGrows(requests: seq<Package>, capacity: real, k: nat)
    requires 0 < k <= |requests| && Takes(requests, capacity, 0)
    ensures Taken(requests, capacity, k) != []
    decreases k
  {
    if k > 1 {
      TakenGrows(requests, capacity, k - 1);
    }
  }

  lemma {:induction false} PayoutMonotone(ps: seq<Package>, low: real, high: real, feePercent: real)
    requires low <= high && feePercent >= 0.0
    ensures PayoutOf(ps, low, feePercent) <= PayoutOf(ps, high, feePercent)
    decreases |ps|
  {
    if ps != [] {
      PayoutMonotone(ps[..|ps| - 1], low, high, feePercent);
      QuoteMonotone(Rated(low), Rated(high), ps[|ps| - 1], ps[|ps| - 1], feePercent);
    }
  }

  lemma RecommendedIsTens(value: real) returns (k: int)
    ensures 3 <= k <= 50 && RecommendedRate(value) == k as real * 10.0
  {
    k := Round(value / 10.0);
    k := Min(Max(k, 3), 50);
  }

  /** Fast fill is never dearer than balanced, and premium never cheaper. */
  lemma TierRatesOrdered(value: real)
    ensures var r := RecommendedRate(value); FastRate(r) <= r <= PremiumRate(r)
  {
    var k := RecommendedIsTens(value);
    var r := RecommendedRate(value);
    assert r * 0.9 / 10.0 == k as real * 0.9 && r * 1.18 / 10.0 == k as real * 1.18;
    assert Round(k as real * 0.9) <= k;
    assert Round(k as real * 1.18) >= k;
  }

  /** A multiple of ten rupees. */
  predicate InTens(rate: real) {
    (rate / 10.0).Floor as real * 10.0 == rate
  }

  lemma TensAre(k: int)
    ensures InTens(k as real * 10.0)
  {
    assert k as real * 10.0 / 10.0 == k as real;
  }

  predicate WithinFive(rate: real, wanted: real) {
    -5.0 <= rate - wanted <= 5.0
  }

  /** The recommended rate is the market rate to the nearest ten, from 30 to 500; the tiers are 90 and 118 percent of it. */
  lemma RatesAreNearest(value: real)
    ensures var r := RecommendedRate(value);
            && InTens(r) && InTens(FastRate(r)) && InTens(PremiumRate(r)) && 30.0 <= r <= 500.0
            && (if value < 35.0 then r == 30.0 else if value >= 495.0 then r == 500.0 else WithinFive(r, value))
            && WithinFive(FastRate(r), r * 0.9)
            && (if r * 1.18 >= 495.0 then PremiumRate(r) == 500.0 else WithinFive(PremiumRate(r), r * 1.18))
  {
    var k := RecommendedIsTens(value);
    var r := RecommendedRate(value);
    var f, p := Round(r * 0.9 / 10.0), Round(r * 1.18 / 10.0);
    assert 2 <= f <= 45 && FastRate(r) == f as real * 10.0;
    assert p >= 3 && PremiumRate(r) == Min(p, 50) as real * 10.0;
    TensAre(k);
    TensAre(f);
    TensAre(Min(p, 50));
  }

  /** The lower tiers are ordered whatever is pending: they carry the same parcels. */
  lemma FastNeverPaysMore(value: real, ps: seq<Package>, feePercent: real)
    requires feePercent >= 0.0
    ensures PayoutOf(ps, FastRate(RecommendedRate(value)), feePercent) <= PayoutOf(ps, RecommendedRate(value), feePercent)
    ensures PayoutOf(ps, RecommendedRate(value), feePercent) <= PayoutOf(ps, PremiumRate(RecommendedRate(value)), feePercent)
  {
    var r := RecommendedRate(value);
    TierRatesOrdered(value);
    PayoutMonotone(ps, FastRate(r), r, feePercent);
    PayoutMonotone(ps, r, PremiumRate(r), feePercent);
  }

  /** Whatever the market rate, the premium tier pays at least the balanced one; `u` and `u'` are their utilizations. */
  ghost predicate PremiumNeverPaysLess(requests: seq<Package>, capacity: real, c: Category, w: (real, real),
                                       u: real, u': real, feePercent: real) {
    forall value: real ::
      PayoutOf(Selection(requests, capacity, u, c, w), RecommendedRate(value), feePercent)
      <= PayoutOf(Selection(requests, capacity, u', c, w), PremiumRate(RecommendedRate(value)), feePercent)
  }

  lemma OneParcel(p: Package, rate: real, feePercent: real)
    ensures PayoutOf([p], rate, feePercent) == CalculateQuote(Rated(rate), p, feePercent).carrierEarning
  {
    assert [p][..0] == [];
  }

  lemma HeavierPaysMore(x: Package, y: Package, rate: real, feePercent: real)
    requires SameButWeight(x, y) && WeightOf(x) <= WeightOf(y) && feePercent >= 0.0
    ensures PayoutOf([x], rate, feePercent) <= PayoutOf([y], rate, feePercent)
  {
    OneParcel(x, rate, feePercent);
    OneParcel(y, rate, feePercent);
    QuoteMonotone(Rated(rate), Rated(rate), x, y, feePercent);
  }

  /** Both rates are capped at 500, where a lighter stand-in always earns strictly less. */
  lemma TopRates()
    ensures RecommendedRate(5000.0) == 500.0 && PremiumRate(500.0) == 500.0
  {
    assert Round(5000.0 / 10.0) == 500;
    assert 500.0 * 1.18 / 10.0 == 59.0;
    assert Round(500.0 * 1.18 / 10.0) == 59;
  }

  lemma StandInTenths(capacity: real, u: real) returns (k: int)
    requires capacity >= 0.5
    ensures k >= 5 && StandInKg(capacity, u) == k as real / 10.0
  {
    k := Round(Clamp(capacity * u, 0.5, capacity) * 10.0);
    assert Clamp(capacity * u, 0.5, capacity) >= 0.5;
    assert Round(5.0) == 5;
    RoundMonotone(5.0, Clamp(capacity * u, 0.5, capacity) * 10.0);
  }

  lemma TopBase(p: Package, k: int)
    requires k >= 5 && p.weightKg == Some(k as real / 10.0)
    ensures BasePrice(Rated(500.0), p) == 5000 * k
    ensures MinPayout(p) == Max(CategoryMinPayout(CategoryOf(p)), 450 * k)
  {
    var kg := k as real / 10.0;
    assert 500.0 * kg * 100.0 == (5000 * k) as real;
    assert Round((5000 * k) as real) == 5000 * k;
    assert kg * 4500.0 == (450 * k) as real;
    assert Round((450 * k) as real) == 450 * k;
  }

  /** At the top rate a parcel of half a kilo or more earns its components, above any minimum. */
  lemma TopEarning(p: Package, k: int, feePercent: real)
    requires k >= 5 && p.weightKg == Some(k as real / 10.0)
    ensures BasePrice(Rated(500.0), p) == 5000 * k
    ensures CalculateQuote(Rated(500.0), p, feePercent).carrierEarning == RawEarning(5000 * k, Rated(500.0), p)
  {
    TopBase(p, k);
    ExtrasNotNegative(5000 * k, Rated(500.0), p);
    EarningIs(Rated(500.0), p, feePercent);
  }

  lemma LighterPaysLess(capacity: real, c: Category, w: (real, real), u: real, u': real, feePercent: real)
    requires capacity >= 0.5 && feePercent >= 0.0 && StandInKg(capacity, u') < StandInKg(capacity, u)
    ensures PayoutOf([Projected(capacity, u', c, w)], 500.0, feePercent) < PayoutOf([Projected(capacity, u, c, w)], 500.0, feePercent)
  {
    var x, y := Projected(capacity, u, c, w), Projected(capacity, u', c, w);
    var k := StandInTenths(capacity, u);
    var k' := StandInTenths(capacity, u');
    OneParcel(x, 500.0, feePercent);
    OneParcel(y, 500.0, feePercent);
    TopEarning(x, k, feePercent);
    TopEarning(y, k', feePercent);
    RawMonotone(5000 * k', 5000 * k, Rated(500.0), Rated(500.0), y, x);
  }

  /**
   With any pending request, each within the capacity, the payouts are ordered
   like the rates; with none, exactly when the premium stand-in parcel weighs at
   least as much as the balanced one.
   */
  lemma PremiumOrderedIff(requests: seq<Package>, capacity: real, c: Category, w: (real, real),
                                             u: real, u': real, feePercent: real)
    requires feePercent >= 0.0 && capacity >= 0.5 && forall p <- requests :: WeightOf(p) <= capacity
    ensures PremiumNeverPaysLess(requests, capacity, c, w, u, u', feePercent)
            <==> requests != [] || StandInKg(capacity, u) <= StandInKg(capacity, u')
  {
    var ps, ps' := Selection(requests, capacity, u, c, w), Selection(requests, capacity, u', c, w);
    if requests != [] {
      assert requests[0] in requests;
      TakenGrows(requests, capacity, |requests|);
      forall value: real
        ensures PayoutOf(ps, RecommendedRate(value), feePercent) <= PayoutOf(ps', PremiumRate(RecommendedRate(value)), feePercent)
      {
        FastNeverPaysMore(value, ps, feePercent);
      }
    } else {
      var x, y := Projected(capacity, u, c, w), Projected(capacity, u', c, w);
      assert ps == [x] && ps' == [y];
      if StandInKg(capacity, u) <= StandInKg(capacity, u') {
        forall value: real
          ensures PayoutOf(ps, RecommendedRate(value), feePercent) <= PayoutOf(ps', PremiumRate(RecommendedRate(value)), feePercent)
        {
          HeavierPaysMore(x, y, RecommendedRate(value), feePercent);
          FastNeverPaysMore(value, ps', feePercent);
        }
      } else {
        TopRates();
        LighterPaysLess(capacity, c, w, u, u', feePercent);
        assert PayoutOf(ps', PremiumRate(RecommendedRate(5000.0)), feePercent) < PayoutOf(ps, RecommendedRate(5000.0), feePercent);
      }
    }
  }

  /** With nothing pending and no competing trip the tiers fall back to 60 and 45 percent: ten kilos free are enough to break the order. */
  lemma PremiumCanPayLess(c: Category, w: (real, real), feePercent: real)
    requires feePercent >= 0.0
    ensures !PremiumNeverPaysLess([], 10.0, c, w, 0.6, 0.45, feePercent)
  {
    assert 10.0 * 0.6 == 6.0 && 10.0 * 0.45 == 4.5;
    assert Round(6.0 * 10.0) == 60 && Round(4.5 * 10.0) == 45;
    PremiumOrderedIff([], 10.0, c, w, 0.6, 0.45, feePercent);
  }
}
