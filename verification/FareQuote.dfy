/** Quoting a fare and settling a completed trip. Amounts are rupees. */
module FareQuote {
  import opened Money
  import opened Options

  /** The shield fee of one order. */
  const SHIELD: real := 1.0

  /** The commission percentage of a trip whose vehicle type has no active rule. */
  const DEFAULT_COMMISSION: real := 25.0

  datatype PricingRule = PricingRule(
    baseFare: real,
    baseDistanceKm: real,
    perKmRate: real,
    multiStopFee: real,
    commissionPercent: real,
    freeWaitingMinutes: int,
    waitingChargePerMinute: real)
  {
    predicate NonNegative() {
      && 0.0 <= baseFare && 0.0 <= perKmRate && 0.0 <= multiStopFee
    }
  }

  datatype FareSettings = FareSettings(platformFee: real, gstPercent: real)

  datatype Quote = Quote(
    deliveryCharge: real,
    platformFee: real,
    taxableValue: real,
    cgst: real,
    sgst: real,
    gst: real,
    estimatedFare: real,
    commission: real,
    driverEarnings: real)

  function Max(x: real, y: real): real {
    if x < y then y else x
  }

  /** Time of day against live demand; `active` is absent when the count fails. */
  function SurgeMultiplier(hour: nat, active: Option<nat>): (r: real)
    ensures r in {1.0, 1.2, 1.3, 1.4, 1.6}
  {
    var timeSurge := if 8 <= hour < 10 then 1.2 else if 18 <= hour < 21 then 1.3 else 1.0;
    var demandSurge :=
      if active.None? then 1.0
      else if active.value >= 30 then 1.6
      else if active.value >= 20 then 1.4
      else if active.value >= 12 then 1.3
      else if active.value >= 6 then 1.2
      else 1.0;
    var surge := Max(timeSurge, demandSurge);
    if surge < 1.6 then surge else 1.6
  }

  /** A quantity at a rate, in whole rupees. */
  function Charge(quantity: real, rate: real): int {
    Round(quantity * rate)
  }

  function BeforeSurge(distanceKm: real, extraStops: nat, rule: PricingRule): real {
    rule.baseFare
    + Charge(Max(0.0, distanceKm - rule.baseDistanceKm), rule.perKmRate) as real
    + Charge(extraStops as real, rule.multiStopFee) as real
  }

  function DeliveryCharge(distanceKm: real, extraStops: nat, rule: PricingRule, surge: real): int {
    Charge(BeforeSurge(distanceKm, extraStops, rule), surge)
  }

  function HalfRate(gstPercent: real): real {
    gstPercent / 2.0 / 100.0
  }

  /** CGST and SGST are each this: half the rate on the taxable value, to the paisa. */
  function HalfGst(taxable: real, halfRate: real): real {
    Round2(taxable * halfRate)
  }

  function Commission(delivery: real, percent: real): real {
    Round2(delivery * (percent / 100.0))
  }

  function EstimateFare(
      distanceKm: real, extraStops: nat, rule: PricingRule, settings: FareSettings, surge: real): Quote
  {
    var platformFee := Round(settings.platformFee) as real;
    var delivery := DeliveryCharge(distanceKm, extraStops, rule, surge) as real;
    var taxable := Round2(delivery + platformFee);
    var cgst := HalfGst(taxable, HalfRate(settings.gstPercent));
    var sgst := HalfGst(taxable, HalfRate(settings.gstPercent));
    var gst := Round2(cgst + sgst);
    var commission := Commission(delivery, rule.commissionPercent);
    Quote(delivery, platformFee, taxable, cgst, sgst, gst, Round2(taxable + gst),
          commission, Round2(delivery - commission - SHIELD))
  }

  /** The fare of the stored offer: coin and coupon discounts, floored at zero. */
  function DiscountedFare(estimatedFare: real, coinDiscount: real, couponDiscount: real): real {
    Max(0.0, Round2(estimatedFare - coinDiscount - couponDiscount))
  }

  datatype Trip = Trip(
    estimatedFare: real,
    deliveryCharge: Option<real>, // absent from the breakdown of an old booking
    rule: Option<PricingRule>,
    waitingMinutes: nat,
    hasToll: bool,
    tollAmount: real)

  datatype Settlement = Settlement(
    waitingCharge: real,
    toll: real,
    finalFare: real,
    cashCollected: int, // whole rupees
    commission: real,
    driverEarnings: real)

  function WaitingCharge(rule: Option<PricingRule>, minutes: nat): int {
    if rule.Some? && minutes > 0 then
      var chargeable := minutes - rule.value.freeWaitingMinutes;
      Charge((if chargeable < 0 then 0 else chargeable) as real, rule.value.waitingChargePerMinute)
    else 0
  }

  function CommissionPercent(rule: Option<PricingRule>): real {
    if rule.Some? then rule.value.commissionPercent else DEFAULT_COMMISSION
  }

  function CompleteTrip(t: Trip): Settlement {
    var toll := if t.hasToll then t.tollAmount else 0.0;
    var waiting := WaitingCharge(t.rule, t.waitingMinutes) as real;
    var finalFare := Round2(t.estimatedFare + waiting + toll);
    var delivery := if t.deliveryCharge.Some? then t.deliveryCharge.value else t.estimatedFare;
    var commission := Commission(delivery, CommissionPercent(t.rule));
    Settlement(waiting, toll, finalFare, Ceil(finalFare), commission,
               Round2(delivery - commission - SHIELD + waiting + toll))
  }

  /** What is recovered from the driver's wallet after a cash trip, before it is rounded. */
  function CashRecovery(s: Settlement): real {
    Round2(s.cashCollected as real - s.driverEarnings)
  }

  /** The wallet is debited in whole rupees. */
  function CashDebit(recovery: real, shieldAmount: real): int {
    Round(recovery + shieldAmount)
  }

  // ---------------------------------------------------------------------------------------
  // The quote
  // ---------------------------------------------------------------------------------------

  lemma QuoteParts(distanceKm: real, extraStops: nat, rule: PricingRule, settings: FareSettings, surge: real)
    ensures var q := EstimateFare(distanceKm, extraStops, rule, settings, surge);
      && WholePaise(q.estimatedFare) && WholePaise(q.driverEarnings) && WholePaise(q.deliveryCharge)
      && q.taxableValue == q.deliveryCharge + q.platformFee
      && q.gst == q.cgst + q.sgst
      && q.estimatedFare == q.taxableValue + q.gst
      && q.driverEarnings == q.deliveryCharge - q.commission - SHIELD
  {
    var q := EstimateFare(distanceKm, extraStops, rule, settings, surge);
    WholeRupeesAreWholePaise(DeliveryCharge(distanceKm, extraStops, rule, surge));
    WholeRupeesAreWholePaise(Round(settings.platformFee));
    WholeRupeesAreWholePaise(1);
    RoundingWholePaise(q.deliveryCharge, q.platformFee);
    RoundingWholePaise(q.cgst, q.sgst);
    RoundingWholePaise(q.taxableValue, q.gst);
    RoundingWholePaise(q.deliveryCharge, q.commission);
    RoundingWholePaise(q.deliveryCharge - q.commission, SHIELD);
  }

  /** Every paisa the customer is quoted goes to exactly one place. */
  lemma QuoteConserved(distanceKm: real, extraStops: nat, rule: PricingRule, settings: FareSettings, surge: real)
    ensures var q := EstimateFare(distanceKm, extraStops, rule, settings, surge);
      q.estimatedFare ==
        q.driverEarnings + q.commission + SHIELD + q.platformFee + q.cgst + q.sgst
  {
    QuoteParts(distanceKm, extraStops, rule, settings, surge);
  }

  /** The two halves of the tax are equal and their sum is within a paisa of the exact tax. */
  lemma GstWithinAPaisa(distanceKm: real, extraStops: nat, rule: PricingRule, settings: FareSettings, surge: real)
    ensures var q := EstimateFare(distanceKm, extraStops, rule, settings, surge);
      && q.cgst == q.sgst
      && -0.01 <= q.gst - q.taxableValue * (settings.gstPercent / 100.0) <= 0.01
  {
    QuoteParts(distanceKm, extraStops, rule, settings, surge);
    var t := EstimateFare(distanceKm, extraStops, rule, settings, surge).taxableValue;
    HalvesMakeAWhole(t, settings.gstPercent);
  }

  lemma HalvesMakeAWhole(t: real, g: real)
    ensures t * (g / 100.0) == 2.0 * (t * HalfRate(g))
  {
  }

  /** A longer trip, more stops or a higher surge never lowers the fare. */
  lemma FareMonotone(d1: real, d2: real, n1: nat, n2: nat, rule: PricingRule, settings: FareSettings,
                     s1: real, s2: real)
    requires d1 <= d2 && n1 <= n2 && 0.0 <= s1 <= s2
    requires rule.NonNegative() && 0.0 <= settings.gstPercent
    ensures EstimateFare(d1, n1, rule, settings, s1).estimatedFare
         <= EstimateFare(d2, n2, rule, settings, s2).estimatedFare
  {
    DeliveryMonotone(d1, d2, n1, n2, rule, s1, s2);
    QuoteParts(d1, n1, rule, settings, s1);
    QuoteParts(d2, n2, rule, settings, s2);
    var q1, q2 := EstimateFare(d1, n1, rule, settings, s1), EstimateFare(d2, n2, rule, settings, s2);
    assert q1.taxableValue <= q2.taxableValue;
    HalfGstMonotone(q1.taxableValue, q2.taxableValue, HalfRate(settings.gstPercent));
  }

  lemma HalfGstMonotone(t1: real, t2: real, halfRate: real)
    requires t1 <= t2 && 0.0 <= halfRate
    ensures HalfGst(t1, halfRate) <= HalfGst(t2, halfRate)
  {
    ScaledKeepsOrder(t1, t2, halfRate);
  }

  lemma ChargeMonotone(a: real, b: real, r1: real, r2: real)
    requires 0.0 <= a <= b && 0.0 <= r1 <= r2
    ensures 0 <= Charge(a, r1) <= Charge(b, r2)
    ensures 0.0 <= Charge(a, r1) as real <= Charge(b, r2) as real
  {
    ProductKeepsOrder(a, b, r1, r2);
    RoundOfWhole(0);
    RoundKeepsOrder(0.0, a * r1);
    RoundKeepsOrder(a * r1, b * r2);
  }

  lemma DeliveryMonotone(d1: real, d2: real, n1: nat, n2: nat, rule: PricingRule, s1: real, s2: real)
    requires d1 <= d2 && n1 <= n2 && 0.0 <= s1 <= s2 && rule.NonNegative()
    ensures DeliveryCharge(d1, n1, rule, s1) <= DeliveryCharge(d2, n2, rule, s2)
  {
    var k1, k2 := Max(0.0, d1 - rule.baseDistanceKm), Max(0.0, d2 - rule.baseDistanceKm);
    ChargeMonotone(k1, k2, rule.perKmRate, rule.perKmRate);
    ChargeMonotone(n1 as real, n2 as real, rule.multiStopFee, rule.multiStopFee);
    ChargeMonotone(BeforeSurge(d1, n1, rule), BeforeSurge(d2, n2, rule), s1, s2);
  }

  // ---------------------------------------------------------------------------------------
  // What is charged for what
  // ---------------------------------------------------------------------------------------

  /** The surge is the larger of the time's and the demand's: each level is reached exactly at
      its hours or from its number of open bookings on. */
  lemma SurgeLevels(hour: nat, active: Option<nat>)
    ensures var r := SurgeMultiplier(hour, active);
      var n := if active.Some? then active.value else 0;
      && (r >= 1.2 <==> n >= 6 || 8 <= hour < 10 || 18 <= hour < 21)
      && (r >= 1.3 <==> n >= 12 || 18 <= hour < 21)
      && (r >= 1.4 <==> n >= 20)
      && (r >= 1.6 <==> n >= 30)
  {
  }

  /** Up to the base distance and without extra stops a trip costs the base fare at the surge. */
  lemma BaseFareCoversBaseDistance(distanceKm: real, rule: PricingRule, settings: FareSettings, surge: real)
    requires distanceKm <= rule.baseDistanceKm
    ensures EstimateFare(distanceKm, 0, rule, settings, surge).deliveryCharge == Charge(rule.baseFare, surge) as real
  {
    BaseOnly(distanceKm, rule);
    hide BeforeSurge, Charge, HalfGst, HalfRate, Commission, Round, Round2;
  }

  lemma BaseOnly(distanceKm: real, rule: PricingRule)
    requires distanceKm <= rule.baseDistanceKm
    ensures BeforeSurge(distanceKm, 0, rule) == rule.baseFare
  {
    ChargeNothing(rule.perKmRate);
    ChargeNothing(rule.multiStopFee);
    hide Charge;
  }

  /** A charge is the whole number of rupees nearest to the exact amount. */
  lemma ChargeNearest(quantity: real, rate: real)
    ensures -0.5 <= Charge(quantity, rate) as real - quantity * rate <= 0.5
  {
  }

  lemma ChargeNothing(rate: real)
    ensures Charge(0.0, rate) == 0
  {
    RoundOfWhole(0);
  }

  /** One unit more at a whole-rupee rate costs the rate more. */
  lemma ChargeOneMore(quantity: real, rate: real)
    requires Whole(rate)
    ensures Charge(quantity + 1.0, rate) as real == Charge(quantity, rate) as real + rate
  {
    assert (quantity + 1.0) * rate == rate.Floor as real + quantity * rate;
    ShiftedRounding(rate.Floor, quantity * rate);
  }

  /** At no surge and whole-rupee rates, each kilometre beyond the base distance adds the
      kilometre's rate, and each stop adds the stop's fee. */
  lemma EachKilometreAndStop(distanceKm: real, extraStops: nat, rule: PricingRule, settings: FareSettings)
    requires Whole(rule.baseFare) && Whole(rule.perKmRate) && Whole(rule.multiStopFee)
    ensures var charge := EstimateFare(distanceKm, extraStops, rule, settings, 1.0).deliveryCharge;
      && (distanceKm >= rule.baseDistanceKm ==>
            EstimateFare(distanceKm + 1.0, extraStops, rule, settings, 1.0).deliveryCharge == charge + rule.perKmRate)
      && EstimateFare(distanceKm, extraStops + 1, rule, settings, 1.0).deliveryCharge == charge + rule.multiStopFee
  {
    ChargeOneMore(distanceKm - rule.baseDistanceKm, rule.perKmRate);
    ChargeOneMore(extraStops as real, rule.multiStopFee);
    NoSurge(distanceKm, extraStops, rule);
    NoSurge(distanceKm + 1.0, extraStops, rule);
    NoSurge(distanceKm, extraStops + 1, rule);
    assert distanceKm + 1.0 - rule.baseDistanceKm == distanceKm - rule.baseDistanceKm + 1.0;
    assert (extraStops + 1) as real == extraStops as real + 1.0;
    hide Charge, DeliveryCharge;
  }

  lemma NoSurge(distanceKm: real, extraStops: nat, rule: PricingRule)
    requires Whole(rule.baseFare)
    ensures DeliveryCharge(distanceKm, extraStops, rule, 1.0) as real == BeforeSurge(distanceKm, extraStops, rule)
  {
    var before := BeforeSurge(distanceKm, extraStops, rule);
    var n := rule.baseFare.Floor + Charge(Max(0.0, distanceKm - rule.baseDistanceKm), rule.perKmRate)
             + Charge(extraStops as real, rule.multiStopFee);
    assert before == n as real;
    RoundOfWhole(n);
    assert before * 1.0 == before;
  }

  /** For all rates: the rounding of distance and stops, at the surge, and of the sum. */
  lemma DeliveryNearExact(distanceKm: real, extraStops: nat, rule: PricingRule, settings: FareSettings, surge: real)
    requires 0.0 <= surge
    ensures var charge := EstimateFare(distanceKm, extraStops, rule, settings, surge).deliveryCharge;
      var beyond := if distanceKm <= rule.baseDistanceKm then 0.0 else distanceKm - rule.baseDistanceKm;
      var exact := rule.baseFare + beyond * rule.perKmRate + extraStops as real * rule.multiStopFee;
      exact * surge - surge - 0.5 <= charge <= exact * surge + surge + 0.5
  {
    var beyond := if distanceKm <= rule.baseDistanceKm then 0.0 else distanceKm - rule.baseDistanceKm;
    var exact := rule.baseFare + beyond * rule.perKmRate + extraStops as real * rule.multiStopFee;
    var before := BeforeSurge(distanceKm, extraStops, rule);
    assert exact - 1.0 <= before <= exact + 1.0;
    SurgedBounds(exact, before, surge);
  }

  lemma SurgedBounds(exact: real, before: real, surge: real)
    requires 0.0 <= surge && exact - 1.0 <= before <= exact + 1.0
    ensures exact * surge - surge - 0.5 <= Charge(before, surge) as real <= exact * surge + surge + 0.5
  {
    var low, high := exact - 1.0, exact + 1.0;
    assert low * surge == exact * surge - surge && high * surge == exact * surge + surge;
    ProductKeepsOrder(0.0, before - low, 0.0, surge);
    ProductKeepsOrder(0.0, high - before, 0.0, surge);
    assert before * surge == low * surge + (before - low) * surge == high * surge - (high - before) * surge;
  }

  /** Commission and tax: the percentages of the delivery charge and of the taxable value, to
      the paisa. */
  lemma SharesNearExact(distanceKm: real, extraStops: nat, rule: PricingRule, settings: FareSettings, surge: real)
    ensures var q := EstimateFare(distanceKm, extraStops, rule, settings, surge);
      && -0.005 <= q.commission - q.deliveryCharge * (rule.commissionPercent / 100.0) <= 0.005
      && -0.5 <= q.platformFee - settings.platformFee <= 0.5
  {
    hide DeliveryCharge, HalfGst, HalfRate;
  }

  /** The commission of a settlement: the percentage of the rule, or 25 percent without one, of
      the quoted delivery charge, or of the whole fare where none was stored. */
  lemma CommissionNearExact(t: Trip)
    ensures var delivery := if t.deliveryCharge.Some? then t.deliveryCharge.value else t.estimatedFare;
      var percent := if t.rule.Some? then t.rule.value.commissionPercent else 25.0;
      -0.005 <= CompleteTrip(t).commission - delivery * (percent / 100.0) <= 0.005
  {
    hide WaitingCharge;
  }

  /** Waiting is free without a rule and within the free minutes. */
  lemma FreeWaiting(t: Trip)
    requires t.rule.None? || t.waitingMinutes <= t.rule.value.freeWaitingMinutes || t.waitingMinutes == 0
    ensures CompleteTrip(t).waitingCharge == 0.0
  {
    if t.rule.Some? {
      ChargeNothing(t.rule.value.waitingChargePerMinute);
    }
  }

  /** At a whole-rupee rate each minute past the free ones adds the rate, to the charge, to
      what the customer pays and to what the driver earns. */
  lemma EachMinute(t: Trip)
    requires t.rule.Some? && 0 <= t.rule.value.freeWaitingMinutes <= t.waitingMinutes
    requires Whole(t.rule.value.waitingChargePerMinute)
    ensures var rate := t.rule.value.waitingChargePerMinute;
      var s, more := CompleteTrip(t), CompleteTrip(t.(waitingMinutes := t.waitingMinutes + 1));
      && more.waitingCharge == s.waitingCharge + rate
      && more.finalFare == s.finalFare + rate
      && more.driverEarnings == s.driverEarnings + rate
  {
    var rule := t.rule.value;
    var u := t.(waitingMinutes := t.waitingMinutes + 1);
    var excess := t.waitingMinutes - rule.freeWaitingMinutes;
    var waiting := WaitingCharge(t.rule, t.waitingMinutes);
    ChargeOneMore(excess as real, rule.waitingChargePerMinute);
    ChargeNothing(rule.waitingChargePerMinute);
    assert (excess + 1) as real == excess as real + 1.0;
    var n := rule.waitingChargePerMinute.Floor;
    assert WaitingCharge(u.rule, u.waitingMinutes) == waiting + n;
    hide Charge, WaitingCharge;
    var toll := if t.hasToll then t.tollAmount else 0.0;
    var delivery := if t.deliveryCharge.Some? then t.deliveryCharge.value else t.estimatedFare;
    var commission := Commission(delivery, CommissionPercent(t.rule));
    RupeesMore(t.estimatedFare + waiting as real + toll, n);
    RupeesMore(delivery - commission - SHIELD + waiting as real + toll, n);
    assert t.estimatedFare + (waiting + n) as real + toll == t.estimatedFare + waiting as real + toll + n as real;
    assert delivery - commission - SHIELD + (waiting + n) as real + toll
        == delivery - commission - SHIELD + waiting as real + toll + n as real;
    hide Round2, Commission;
  }

  lemma RupeesMore(x: real, n: int)
    ensures Round2(x + n as real) == Round2(x) + n as real
  {
    assert (x + n as real) * 100.0 == (100 * n) as real + x * 100.0;
    ShiftedRounding(100 * n, x * 100.0);
  }

  /** At any rate it is within half a rupee of the excess minutes at the rate. */
  lemma WaitingNearExact(t: Trip)
    requires t.rule.Some? && 0 <= t.rule.value.freeWaitingMinutes
    ensures var excess := if t.waitingMinutes <= t.rule.value.freeWaitingMinutes then 0
                          else t.waitingMinutes - t.rule.value.freeWaitingMinutes;
      var exact := excess as real * t.rule.value.waitingChargePerMinute;
      exact - 0.5 <= CompleteTrip(t).waitingCharge <= exact + 0.5
  {
    if t.waitingMinutes <= t.rule.value.freeWaitingMinutes {
      FreeWaiting(t);
    }
  }

  /** What the customer pays: the stored fare, waiting and toll, to the paisa, and in cash the
      next whole rupee. */
  lemma CustomerPays(t: Trip)
    ensures var s := CompleteTrip(t);
      var exact := t.estimatedFare + s.waitingCharge + (if t.hasToll then t.tollAmount else 0.0);
      && exact - 0.005 <= s.finalFare <= exact + 0.005
      && s.finalFare <= s.cashCollected as real < s.finalFare + 1.0
  {
    hide WaitingCharge, Commission;
  }

  // ---------------------------------------------------------------------------------------
  // The settlement
  // ---------------------------------------------------------------------------------------

  /** The trip that completes a quoted booking. The quote looks its rule up by state and the
      completion by city, so that `later` may be another rule, or none. */
  function QuotedTrip(q: Quote, coins: real, coupon: real, later: Option<PricingRule>,
                      minutes: nat, hasToll: bool, tollAmount: real): Trip
  {
    Trip(DiscountedFare(q.estimatedFare, coins, coupon), Some(q.deliveryCharge), later,
         minutes, hasToll, tollAmount)
  }

  /** Whole paise pass through a rounding, a toll with parts of a paisa is rounded. */
  lemma TollRounding(known: real, toll: real)
    requires WholePaise(known)
    ensures Round2(known + toll) == known + Round2(toll)
    ensures Round2(toll) == toll <==> WholePaise(toll)
  {
    ShiftedRounding((known * 100.0).Floor, toll * 100.0);
    assert (known + toll) * 100.0 == known * 100.0 + toll * 100.0;
    if WholePaise(toll) {
      Round2OfWholePaise(toll);
    }
  }

  lemma ShiftedRounding(n: int, x: real)
    ensures Round(n as real + x) == n + Round(x)
  {
  }

  /** What the driver is settled: the quoted earnings, corrected by the change of commission,
      plus waiting, and the toll to the paisa. */
  lemma SettledEarnings(distanceKm: real, extraStops: nat, rule: PricingRule, settings: FareSettings,
                        surge: real, coins: real, coupon: real, later: Option<PricingRule>,
                        minutes: nat, hasToll: bool, tollAmount: real)
    ensures var q := EstimateFare(distanceKm, extraStops, rule, settings, surge);
      var s := CompleteTrip(QuotedTrip(q, coins, coupon, later, minutes, hasToll, tollAmount));
      && WholePaise(q.commission - s.commission)
      && (CommissionPercent(later) == rule.commissionPercent ==> s.commission == q.commission)
      && s.driverEarnings == q.driverEarnings + (q.commission - s.commission) + s.waitingCharge + Round2(s.toll)
  {
    var q := EstimateFare(distanceKm, extraStops, rule, settings, surge);
    QuoteParts(distanceKm, extraStops, rule, settings, surge);
    var s := CompleteTrip(QuotedTrip(q, coins, coupon, later, minutes, hasToll, tollAmount));
    RoundingWholePaise(q.commission, s.commission);
    EarningsToThePaisa(q.deliveryCharge, s.commission, WaitingCharge(later, minutes), s.toll);
    hide Round2, WholePaise, WaitingCharge;
  }

  lemma EarningsToThePaisa(delivery: real, commission: real, waiting: int, toll: real)
    requires WholePaise(delivery) && WholePaise(commission)
    ensures Round2(delivery - commission - SHIELD + waiting as real + toll)
         == delivery - commission - SHIELD + waiting as real + Round2(toll)
  {
    hide Round2;
    WholeRupeesAreWholePaise(waiting);
    WholeRupeesAreWholePaise(1);
    RoundingWholePaise(delivery, commission);
    RoundingWholePaise(delivery - commission, SHIELD);
    RoundingWholePaise(delivery - commission - SHIELD, waiting as real);
    TollRounding(delivery - commission - SHIELD + waiting as real, toll);
  }

  /** Under whatever rule it is settled, the driver earns what was quoted plus waiting and
      toll, if and only if the commission is the quoted one and the toll is whole paise: no
      discount given to the customer reaches the driver. */
  lemma SettledAsQuoted(distanceKm: real, extraStops: nat, rule: PricingRule, settings: FareSettings,
                        surge: real, coins: real, coupon: real, later: Option<PricingRule>,
                        minutes: nat, hasToll: bool, tollAmount: real)
    ensures var q := EstimateFare(distanceKm, extraStops, rule, settings, surge);
      var s := CompleteTrip(QuotedTrip(q, coins, coupon, later, minutes, hasToll, tollAmount));
      && (CommissionPercent(later) == rule.commissionPercent ==> s.commission == q.commission)
      && s.toll == (if hasToll then tollAmount else 0.0)
      && (s.driverEarnings == q.driverEarnings + s.waitingCharge + s.toll <==>
            s.commission == q.commission && WholePaise(s.toll))
  {
    SettledEarnings(distanceKm, extraStops, rule, settings, surge, coins, coupon, later, minutes, hasToll, tollAmount);
    WholeRupeesAreWholePaise(0);
    var q := EstimateFare(distanceKm, extraStops, rule, settings, surge);
    var s := CompleteTrip(QuotedTrip(q, coins, coupon, later, minutes, hasToll, tollAmount));
    TollRounding(0.0, s.toll);
    if s.driverEarnings == q.driverEarnings + s.waitingCharge + s.toll {
      SmallWholePaise(q.commission - s.commission);
    }
  }

  /** Less than a paisa is nothing. */
  lemma SmallWholePaise(x: real)
    requires WholePaise(x) && -0.01 < x < 0.01
    ensures x == 0.0
  {
    assert -1.0 < x * 100.0 < 1.0;
  }

  /** The fare is lowered by exactly the discounts if and only if they are whole paise and do
      not exceed it. */
  lemma DiscountTaken(fare: real, coins: real, coupon: real)
    requires WholePaise(fare)
    ensures WholePaise(DiscountedFare(fare, coins, coupon))
    ensures DiscountedFare(fare, coins, coupon) == fare - coins - coupon <==>
      WholePaise(coins + coupon) && coins + coupon <= fare
  {
    WholeRupeesAreWholePaise(0);
    var discount := coins + coupon;
    assert fare - coins - coupon == fare - discount;
    if WholePaise(discount) {
      RoundingWholePaise(fare, discount);
    }
    if DiscountedFare(fare, coins, coupon) == fare - discount {
      RoundingWholePaise(fare, fare - discount);
      assert fare - (fare - discount) == discount;
    }
  }

  /** The final fare is conserved too, whatever the toll and whatever rule it is settled under,
      if and only if the discounts are whole paise and do not exceed the fare: they are the
      platform's cost, nobody else's. */
  lemma FinalFareConserved(distanceKm: real, extraStops: nat, rule: PricingRule, settings: FareSettings,
                           surge: real, coins: real, coupon: real, later: Option<PricingRule>,
                           minutes: nat, hasToll: bool, tollAmount: real)
    ensures var q := EstimateFare(distanceKm, extraStops, rule, settings, surge);
      var s := CompleteTrip(QuotedTrip(q, coins, coupon, later, minutes, hasToll, tollAmount));
      s.finalFare == s.driverEarnings + s.commission + SHIELD + q.platformFee + q.gst - coins - coupon
      <==> WholePaise(coins + coupon) && coins + coupon <= q.estimatedFare
  {
    var q := EstimateFare(distanceKm, extraStops, rule, settings, surge);
    QuoteParts(distanceKm, extraStops, rule, settings, surge);
    var s := CompleteTrip(QuotedTrip(q, coins, coupon, later, minutes, hasToll, tollAmount));
    SettledEarnings(distanceKm, extraStops, rule, settings, surge, coins, coupon, later, minutes, hasToll, tollAmount);
    DiscountTaken(q.estimatedFare, coins, coupon);
    FinalFare(QuotedTrip(q, coins, coupon, later, minutes, hasToll, tollAmount));
    hide *;
  }

  /** A fare in whole paise is charged with waiting, and the toll to the paisa. */
  lemma FinalFare(t: Trip)
    requires WholePaise(t.estimatedFare)
    ensures var s := CompleteTrip(t);
      s.finalFare == t.estimatedFare + s.waitingCharge + Round2(s.toll)
  {
    var waiting := WaitingCharge(t.rule, t.waitingMinutes);
    WholeRupeesAreWholePaise(waiting);
    RoundingWholePaise(t.estimatedFare, waiting as real);
    TollRounding(t.estimatedFare + waiting as real, if t.hasToll then t.tollAmount else 0.0);
  }

  /** What a cash trip leaves with the driver: the cash less the wallet debit. */
  function CashNet(s: Settlement): int {
    s.cashCollected - CashDebit(CashRecovery(s), 0.0)
  }

  /** Cash and online agree to half a rupee, for every trip, also when the recovery is
      negative. */
  lemma CashNearOnline(t: Trip)
    ensures var s := CompleteTrip(t);
      -0.5 <= CashNet(s) as real - s.driverEarnings <= 0.5
  {
    RecoveryExact(t);
  }

  lemma RecoveryExact(t: Trip)
    ensures var s := CompleteTrip(t);
      WholePaise(s.driverEarnings) && CashRecovery(s) == s.cashCollected as real - s.driverEarnings
  {
    var s := CompleteTrip(t);
    WholeRupeesAreWholePaise(s.cashCollected);
    RoundingWholePaise(s.cashCollected as real, s.driverEarnings);
  }

  /** The driver nets exactly the earnings of the trip, cash or online, if and only if those
      earnings are a whole number of rupees. */
  lemma CashExactlyOnline(t: Trip)
    ensures var s := CompleteTrip(t);
      CashNet(s) as real == s.driverEarnings <==> Whole(s.driverEarnings)
  {
    var s := CompleteTrip(t);
    RecoveryExact(t);
    if Whole(s.driverEarnings) {
      WholeIff(CashRecovery(s), s.cashCollected - s.driverEarnings.Floor);
      RoundOfWhole(s.cashCollected - s.driverEarnings.Floor);
    }
    if CashNet(s) as real == s.driverEarnings {
      WholeIff(s.driverEarnings, CashNet(s));
    }
  }

  /** A 50-rupee delivery at 25 percent with a 5-rupee platform fee: the quote says 36.50,
      a cash trip leaves 36. */
  lemma CashTripMissesTheQuote()
    ensures var rule := PricingRule(50.0, 0.0, 0.0, 0.0, 25.0, 0, 0.0);
      var q := EstimateFare(0.0, 0, rule, FareSettings(5.0, 0.0), 1.0);
      var s := CompleteTrip(QuotedTrip(q, 0.0, 0.0, Some(rule), 0, false, 0.0));
      q.driverEarnings == 36.5 && s.driverEarnings == 36.5 && CashNet(s) == 36
  {
    var rule := PricingRule(50.0, 0.0, 0.0, 0.0, 25.0, 0, 0.0);
    assert BeforeSurge(0.0, 0, rule) == 50.0;
    assert DeliveryCharge(0.0, 0, rule, 1.0) == 50;
    var q := EstimateFare(0.0, 0, rule, FareSettings(5.0, 0.0), 1.0);
    QuoteParts(0.0, 0, rule, FareSettings(5.0, 0.0), 1.0);
    assert HalfGst(55.0, HalfRate(0.0)) == 0.0 && Commission(50.0, 25.0) == 12.5;
    assert q.estimatedFare == 55.0 && q.driverEarnings == 36.5;
    var s := CompleteTrip(QuotedTrip(q, 0.0, 0.0, Some(rule), 0, false, 0.0));
    assert s.finalFare == 55.0 && s.cashCollected == 55;
    assert Round(1850.0) == 1850 && Round(18.5) == 19;
  }
}
