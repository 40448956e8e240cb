/** Quotes: rounded components in paise, a minimum payout, and the platform fee on top. Floats are exact reals. */
module Pricing {
  import opened Common

  datatype Category = Documents | Clothing | Electronics | Food | Fragile | Medicine | Other

  /** The request side of a quote; absent numbers are missing or not finite. Times are in milliseconds. */
  datatype Package = Package(weightKg: Option<real>, category: Option<Category>, isFragile: bool, declaredValue: Option<real>,
                             earliest: Option<real>, latest: Option<real>)

  /** The trip side: its price and its carrier's record. */
  datatype Offer = Offer(pricePerKg: Option<real>, averageRating: Option<real>, completedDeliveries: Option<real>)

  datatype Quote = Quote(carrierEarning: int, platformFee: int, totalCharge: int,
                         basePrice: int, categoryExtra: int, fragileExtra: int, urgencyExtra: int,
                         valueHandlingExtra: int, reliabilityBonus: int, minPayoutAdjustment: int)

  function CategoryOf(p: Package): Category {
    p.category.GetOr(Other)
  }

  /** The category's share of the base price: the multiplier less one. */
  function CategoryExtra(base: int, c: Category): int {
    match c
    case Documents => Round(base as real * 0.0)
    case Clothing => Round(base as real * 0.0)
    case Electronics => Round(base as real * 0.18)
    case Food => Round(base as real * 0.08)
    case Fragile => Round(base as real * 0.22)
    case Medicine => Round(base as real * 0.16)
    case Other => Round(base as real * 0.05)
  }

  function CategoryMinPayout(c: Category): int {
    match c
    case Documents => 5900
    case Clothing => 6900
    case Electronics => 11900
    case Food => 7900
    case Fragile => 12900
    case Medicine => 9900
    case Other => 7900
  }

  function MaxReal(x: real, y: real): real {
    if x >= y then x else y
  }

  function UrgencyExtra(base: int, p: Package): int {
    if p.earliest.None? || p.latest.None? || p.latest.value <= p.earliest.value then Round(base as real * 0.0)
    else
      var hours := (p.latest.value - p.earliest.value) / 3600000.0;
      if hours <= 8.0 then Round(base as real * 0.2)
      else if hours <= 24.0 then Round(base as real * 0.12)
      else if hours <= 48.0 then Round(base as real * 0.06)
      else Round(base as real * 0.0)
  }

  function ReliabilityBonus(base: int, o: Offer): int {
    var rating, done := o.averageRating.GetOr(0.0), o.completedDeliveries.GetOr(0.0);
    if rating >= 4.8 && done >= 20.0 then Round(base as real * 0.05)
    else if rating >= 4.6 && done >= 8.0 then Round(base as real * 0.03)
    else Round(base as real * 0.0)
  }

  function FragileExtra(base: int, p: Package): int {
    if p.isFragile then Round(base as real * 0.18) else 0
  }

  function ValueHandlingExtra(p: Package): int {
    var declared := p.declaredValue.GetOr(0.0);
    if declared <= 5000.0 then 0
    else
      var c := CategoryOf(p);
      Min(Round(declared * 100.0 * (if c == Electronics || c == Fragile then 0.006 else 0.004)), 75000)
  }

  function SafetyDeposit(p: Package, defaultDeposit: int): int {
    var declared := p.declaredValue.GetOr(0.0);
    Min(Max(if declared > 0.0 then Round(declared * 100.0 * 0.1) else 0, defaultDeposit), 500000)
  }

  function Weight(p: Package): real {
    MaxReal(p.weightKg.GetOr(0.0), 0.1)
  }

  function Price(o: Offer): real {
    MaxReal(o.pricePerKg.GetOr(0.0), 1.0)
  }

  /** Everything the carrier earns before the minimum, for a given base price. */
  function RawEarning(base: int, o: Offer, p: Package): int {
    base + CategoryExtra(base, CategoryOf(p)) + FragileExtra(base, p) + UrgencyExtra(base, p)
    + ValueHandlingExtra(p) + ReliabilityBonus(base, o)
  }

  function MinPayout(p: Package): int {
    Max(CategoryMinPayout(CategoryOf(p)), Round(Weight(p) * 4500.0))
  }

  function BasePrice(o: Offer, p: Package): int {
    Round(Price(o) * Weight(p) * 100.0)
  }

  function PlatformFee(earning: int, feePercent: real): int {
    Round(earning as real * (feePercent / 100.0))
  }

  function CalculateQuote(o: Offer, p: Package, feePercent: real): Quote {
    var base := BasePrice(o, p);
    var raw := RawEarning(base, o, p);
    var adjustment := Max(MinPayout(p) - raw, 0);
    var earning := raw + adjustment;
    var fee := PlatformFee(earning, feePercent);
    Quote(earning, fee, earning + fee, base, CategoryExtra(base, CategoryOf(p)), FragileExtra(base, p),
          UrgencyExtra(base, p), ValueHandlingExtra(p), ReliabilityBonus(base, o), adjustment)
  }

  // ---------------------------------------------------------------- lemmas

  lemma RoundMonotone(x: real, y: real)
    requires x <= y
    ensures Round(x) <= Round(y)
  {
    assert (x + 0.5).Floor as real <= y + 0.5;
  }

  lemma ScaleMonotone(x: real, y: real, k: real)
    requires x <= y && k >= 0.0
    ensures x * k <= y * k
  {
    assert (y - x) * k >= 0.0;
  }

  lemma FeeMonotone(a: int, b: int, feePercent: real)
    requires a <= b && feePercent >= 0.0
    ensures PlatformFee(a, feePercent) <= PlatformFee(b, feePercent)
  {
    ScaleMonotone(a as real, b as real, feePercent / 100.0);
    RoundMonotone(a as real * (feePercent / 100.0), b as real * (feePercent / 100.0));
  }

  predicate SameButPrice(o: Offer, o': Offer) {
    o'.(pricePerKg := o.pricePerKg) == o
  }

  predicate SameButWeight(p: Package, p': Package) {
    p'.(weightKg := p.weightKg) == p
  }

  lemma RawMonotone(a: int, b: int, o: Offer, o': Offer, p: Package, p': Package)
    requires a <= b && SameButPrice(o, o') && SameButWeight(p, p')
    ensures RawEarning(b, o', p') - RawEarning(a, o, p) >= b - a
  {
    assert CategoryExtra(a, CategoryOf(p)) <= CategoryExtra(b, CategoryOf(p'));
    assert FragileExtra(a, p) <= FragileExtra(b, p');
    assert UrgencyExtra(a, p) <= UrgencyExtra(b, p');
    assert ReliabilityBonus(a, o) <= ReliabilityBonus(b, o');
  }

  /** Components on top of the base price only ever add to it. */
  lemma ExtrasNotNegative(base: int, o: Offer, p: Package)
    requires base >= 0
    ensures RawEarning(base, o, p) >= base
  {
    assert ValueHandlingExtra(p) >= 0;
    assert CategoryExtra(base, CategoryOf(p)) >= 0;
    assert UrgencyExtra(base, p) >= 0;
  }

  lemma ProductMonotone(x: real, x': real, y: real, y': real)
    requires 0.0 <= x <= x' && 0.0 <= y <= y'
    ensures x * y <= x' * y'
  {
    assert x' * y' - x * y == (x' - x) * y' + x * (y' - y);
    assert (x' - x) * y' >= 0.0;
    assert x * (y' - y) >= 0.0;
  }

  lemma BaseMonotone(o: Offer, o': Offer, p: Package, p': Package)
    requires Price(o) <= Price(o') && Weight(p) <= Weight(p')
    ensures BasePrice(o, p) <= BasePrice(o', p')
  {
    ProductMonotone(Price(o), Price(o'), Weight(p), Weight(p'));
    RoundMonotone(Price(o) * Weight(p) * 100.0, Price(o') * Weight(p') * 100.0);
  }

  lemma FeeIsRate(earning: int, feePercent: real)
    requires feePercent >= 0.0 && earning >= 0
    ensures -0.5 <= PlatformFee(earning, feePercent) as real - earning as real * (feePercent / 100.0) <= 0.5
    ensures PlatformFee(earning, feePercent) >= 0
  {
    assert earning as real * (feePercent / 100.0) >= 0.0;
  }

  /** The breakdown adds up, the minimum is kept, and the fee is the rate to within half a paisa. */
  lemma QuoteAddsUp(o: Offer, p: Package, feePercent: real)
    requires feePercent >= 0.0
    ensures var q := CalculateQuote(o, p, feePercent);
            && q.carrierEarning == q.basePrice + q.categoryExtra + q.fragileExtra + q.urgencyExtra
                                   + q.valueHandlingExtra + q.reliabilityBonus + q.minPayoutAdjustment
            && q.carrierEarning >= CategoryMinPayout(CategoryOf(p)) >= 5900
            && q.carrierEarning as real >= Weight(p) * 4500.0 - 0.5
            && (q.minPayoutAdjustment > 0 ==> q.carrierEarning == MinPayout(p))
            && q.totalCharge - q.platformFee == q.carrierEarning
            && -0.5 <= q.platformFee as real - q.carrierEarning as real * (feePercent / 100.0) <= 0.5
            && q.platformFee >= 0
  {
    FeeIsRate(CalculateQuote(o, p, feePercent).carrierEarning, feePercent);
  }

  lemma MinMonotone(p: Package, p': Package)
    requires SameButWeight(p, p') && p.weightKg.GetOr(0.0) <= p'.weightKg.GetOr(0.0)
    ensures MinPayout(p) <= MinPayout(p')
  {
    RoundMonotone(Weight(p) * 4500.0, Weight(p') * 4500.0);
  }

  lemma EarningIs(o: Offer, p: Package, feePercent: real)
    ensures var q := CalculateQuote(o, p, feePercent);
            && q.carrierEarning == Max(RawEarning(BasePrice(o, p), o, p), MinPayout(p))
            && q.platformFee == PlatformFee(q.carrierEarning, feePercent)
            && q.totalCharge == q.carrierEarning + q.platformFee
  {
  }

  /** Heavier parcels and dearer trips never earn less, cost less, or pay a smaller fee. */
  lemma QuoteMonotone(o: Offer, o': Offer, p: Package, p': Package, feePercent: real)
    requires feePercent >= 0.0
    requires SameButPrice(o, o') && SameButWeight(p, p')
    requires o.pricePerKg.GetOr(0.0) <= o'.pricePerKg.GetOr(0.0) && p.weightKg.GetOr(0.0) <= p'.weightKg.GetOr(0.0)
    ensures var q, q' := CalculateQuote(o, p, feePercent), CalculateQuote(o', p', feePercent);
            && q.carrierEarning <= q'.carrierEarning
            && q.platformFee <= q'.platformFee
            && q.totalCharge <= q'.totalCharge
  {
    var a, b := BasePrice(o, p), BasePrice(o', p');
    BaseMonotone(o, o', p, p');
    RawMonotone(a, b, o, o', p, p');
    MinMonotone(p, p');
    var e, e' := Max(RawEarning(a, o, p), MinPayout(p)), Max(RawEarning(b, o', p'), MinPayout(p'));
    EarningIs(o, p, feePercent);
    EarningIs(o', p', feePercent);
    FeeMonotone(e, e', feePercent);
  }

  /** The deposit stays between the default and the cap, and grows with the declared value. */
  lemma DepositBounds(p: Package, p': Package, defaultDeposit: int)
    requires 0 <= defaultDeposit <= 500000
    requires p.declaredValue.GetOr(0.0) <= p'.declaredValue.GetOr(0.0)
    ensures defaultDeposit <= SafetyDeposit(p, defaultDeposit) <= SafetyDeposit(p', defaultDeposit) <= 500000
  {
    RoundMonotone(p.declaredValue.GetOr(0.0) * 100.0 * 0.1, p'.declaredValue.GetOr(0.0) * 100.0 * 0.1);
    if p.declaredValue.GetOr(0.0) <= 0.0 && p'.declaredValue.GetOr(0.0) > 0.0 {
      RoundMonotone(0.0, p'.declaredValue.GetOr(0.0) * 100.0 * 0.1);
    }
  }

  // ---------------------------------------------------------------- what each component is

  /** The whole number nearest to `y`. */
  predicate Near(x: int, y: real) {
    -0.5 <= x as real - y <= 0.5
  }

  lemma RoundIsNear(x: real)
    ensures Near(Round(x), x)
  {
  }

  /** At least one rupee a kilo, for at least a hundred grams. */
  lemma PriceAndWeight(o: Offer, p: Package)
    ensures Price(o) == if o.pricePerKg.Some? && o.pricePerKg.value > 1.0 then o.pricePerKg.value else 1.0
    ensures Weight(p) == if p.weightKg.Some? && p.weightKg.value > 0.1 then p.weightKg.value else 0.1
  {
  }

  lemma BaseIs(o: Offer, p: Package, feePercent: real)
    ensures CalculateQuote(o, p, feePercent).basePrice == BasePrice(o, p)
  {
  }

  /** The base price is their product in paise. */
  lemma BaseIsProduct(o: Offer, p: Package)
    ensures Near(BasePrice(o, p), Price(o) * Weight(p) * 100.0)
  {
    RoundIsNear(Price(o) * Weight(p) * 100.0);
  }

  /** Category and fragility add their share of the base price. */
  lemma HandlingIsShare(o: Offer, p: Package, feePercent: real)
    ensures var q, c := CalculateQuote(o, p, feePercent), if p.category.Some? then p.category.value else Other;
            && (c == Documents || c == Clothing ==> q.categoryExtra == 0)
            && (c == Electronics ==> Near(q.categoryExtra, q.basePrice as real * 0.18))
            && (c == Food ==> Near(q.categoryExtra, q.basePrice as real * 0.08))
            && (c == Fragile ==> Near(q.categoryExtra, q.basePrice as real * 0.22))
            && (c == Medicine ==> Near(q.categoryExtra, q.basePrice as real * 0.16))
            && (c == Other ==> Near(q.categoryExtra, q.basePrice as real * 0.05))
            && (if p.isFragile then Near(q.fragileExtra, q.basePrice as real * 0.18) else q.fragileExtra == 0)
  {
  }

  /** The window's length in hours, when it has one. */
  function WindowHours(p: Package): Option<real> {
    if p.earliest.Some? && p.latest.Some? && p.latest.value > p.earliest.value then
      Some((p.latest.value - p.earliest.value) / 3600000.0)
    else None
  }

  lemma UrgencyIsShare(o: Offer, p: Package, feePercent: real)
    ensures var q, h := CalculateQuote(o, p, feePercent), WindowHours(p);
            && (h.None? || h.value > 48.0 ==> q.urgencyExtra == 0)
            && (h.Some? && h.value <= 8.0 ==> Near(q.urgencyExtra, q.basePrice as real * 0.2))
            && (h.Some? && 8.0 < h.value <= 24.0 ==> Near(q.urgencyExtra, q.basePrice as real * 0.12))
            && (h.Some? && 24.0 < h.value <= 48.0 ==> Near(q.urgencyExtra, q.basePrice as real * 0.06))
  {
  }

  /** A tighter window never costs less, and none at all costs least. */
  lemma TighterCostsMore(base: int, p: Package, p': Package)
    requires base >= 0 && WindowHours(p).Some?
    requires WindowHours(p').Some? ==> WindowHours(p).value <= WindowHours(p').value
    ensures UrgencyExtra(base, p) >= UrgencyExtra(base, p') >= 0
  {
  }

  /** A good record earns five or three percent. */
  lemma ReliabilityIsShare(o: Offer, p: Package, feePercent: real)
    ensures var q, rating, done := CalculateQuote(o, p, feePercent), o.averageRating.GetOr(0.0), o.completedDeliveries.GetOr(0.0);
            && (rating >= 4.8 && done >= 20.0 ==> Near(q.reliabilityBonus, q.basePrice as real * 0.05))
            && (rating >= 4.6 && done >= 8.0 && (rating < 4.8 || done < 20.0) ==> Near(q.reliabilityBonus, q.basePrice as real * 0.03))
            && (rating < 4.6 || done < 8.0 ==> q.reliabilityBonus == 0)
  {
  }

  /** Above five thousand rupees, 0.6 or 0.4 percent of the value, up to 750 rupees. */
  lemma ValueIsShare(o: Offer, p: Package, feePercent: real)
    ensures var q, declared := CalculateQuote(o, p, feePercent), p.declaredValue.GetOr(0.0);
            var rate := if p.category == Some(Electronics) || p.category == Some(Fragile) then 0.6 else 0.4;
            && (declared <= 5000.0 ==> q.valueHandlingExtra == 0)
            && (declared > 5000.0 ==> Near(q.valueHandlingExtra, declared * rate) || (q.valueHandlingExtra == 75000 && declared * rate >= 74999.5))
            && q.valueHandlingExtra <= 75000
  {
    var declared := p.declaredValue.GetOr(0.0);
    assert declared * 100.0 * 0.006 == declared * 0.6 && declared * 100.0 * 0.004 == declared * 0.4;
  }

  /** What a parcel of each category earns at least. */
  lemma MinimumByCategory(o: Offer, p: Package, feePercent: real)
    ensures var e, c := CalculateQuote(o, p, feePercent).carrierEarning, if p.category.Some? then p.category.value else Other;
            && (c == Documents ==> e >= 5900) && (c == Clothing ==> e >= 6900) && (c == Electronics ==> e >= 11900)
            && (c == Food || c == Other ==> e >= 7900) && (c == Fragile ==> e >= 12900) && (c == Medicine ==> e >= 9900)
  {
    EarningIs(o, p, feePercent);
  }

  /** The category's own minimum. */
  predicate IsCategoryMinimum(c: Category, earning: int) {
    match c
    case Documents => earning == 5900
    case Clothing => earning == 6900
    case Electronics => earning == 11900
    case Food => earning == 7900
    case Fragile => earning == 12900
    case Medicine => earning == 9900
    case Other => earning == 7900
  }

  /** An earning that was topped up is the category's minimum, or forty-five rupees a kilo. */
  lemma TopUpIsMinimum(o: Offer, p: Package, feePercent: real)
    requires CalculateQuote(o, p, feePercent).minPayoutAdjustment > 0
    ensures var e := CalculateQuote(o, p, feePercent).carrierEarning;
            IsCategoryMinimum(if p.category.Some? then p.category.value else Other, e) || Near(e, Weight(p) * 4500.0)
  {
    EarningIs(o, p, feePercent);
    RoundIsNear(Weight(p) * 4500.0);
  }

  /** The deposit is a tenth of the declared value, but at least the default and at most five thousand rupees. */
  lemma DepositIsTenth(p: Package, defaultDeposit: int)
    ensures var deposit, tenth := SafetyDeposit(p, defaultDeposit), p.declaredValue.GetOr(0.0) * 10.0;
            && (tenth <= 0.0 && defaultDeposit >= 0 ==> deposit == Min(defaultDeposit, 500000))
            && (tenth > 0.0 ==>
                  || Near(deposit, tenth)
                  || (deposit == defaultDeposit && tenth <= deposit as real + 0.5)
                  || (deposit == 500000 && (tenth >= 499999.5 || defaultDeposit >= 500000)))
  {
    assert p.declaredValue.GetOr(0.0) * 100.0 * 0.1 == p.declaredValue.GetOr(0.0) * 10.0;
    RoundIsNear(p.declaredValue.GetOr(0.0) * 10.0);
  }
}
