/** Discounting of a leg in its own currency, and the algebra behind the
    pricer's fair-value solve: a leg's present value is affine in its rate
    (fixed leg) or its spread (floating leg), with the leg's annuity as the
    slope. */
module PresentValue {
  import opened Cashflows
  import opened Legs

  /** Value of one flow discounted on the curve. */
  function Discounted(flow: Cashflow, curve: DiscountCurve): real
  {
    flow.amount * curve(flow.date)
  }

  /** Discounted value of the first n flows, accumulated in list order. */
  function PvUpTo(flows: seq<Cashflow>, n: nat, curve: DiscountCurve): real
    requires n <= |flows|
    decreases n
  {
    if n == 0 then 0.0 else PvUpTo(flows, n - 1, curve) + Discounted(flows[n - 1], curve)
  }

  /** Discounted value of a list of cash flows. */
  function Pv(flows: seq<Cashflow>, curve: DiscountCurve): real
  {
    PvUpTo(flows, |flows|, curve)
  }

  /** Flows appended after the first n do not change the value of the first n. */
  lemma {:induction false} PvUpToAppend(a: seq<Cashflow>, b: seq<Cashflow>, n: nat, curve: DiscountCurve)
    requires n <= |a|
    ensures PvUpTo(a + b, n, curve) == PvUpTo(a, n, curve)
    decreases n
  {
    if n > 0 {
      PvUpToAppend(a, b, n - 1, curve);
      assert (a + b)[n - 1] == a[n - 1];
    }
  }

  /** Appending one flow adds its discounted amount. */
  lemma PvSnoc(flows: seq<Cashflow>, flow: Cashflow, curve: DiscountCurve)
    ensures Pv(flows + [flow], curve) == Pv(flows, curve) + Discounted(flow, curve)
  {
    PvUpToAppend(flows, [flow], |flows|, curve);
    assert (flows + [flow])[|flows|] == flow;
  }

  /** Sum of the first n numbers of a list, in list order. */
  function SumUpTo(xs: seq<real>, n: nat): real
    requires n <= |xs|
    decreases n
  {
    if n == 0 then 0.0 else SumUpTo(xs, n - 1) + xs[n - 1]
  }

  function Sum(xs: seq<real>): real
  {
    SumUpTo(xs, |xs|)
  }

  /** Annuity of a schedule: notional times the sum over periods of year
      fraction times the discount factor at the period's end. It is the
      value of one unit of rate (or spread) paid on the schedule. */
  function Annuity(notional: real, schedule: seq<Date>, dayCount: DayCount, curve: DiscountCurve): real
    decreases |schedule|
  {
    if |schedule| < 2 then 0.0
    else
      var n := |schedule|;
      Annuity(notional, schedule[..n - 1], dayCount, curve)
        + notional * dayCount(schedule[n - 2], schedule[n - 1]) * curve(schedule[n - 1])
  }

  /** Present value is additive over concatenated lists of flows. */
  lemma {:induction false} PvAppend(a: seq<Cashflow>, b: seq<Cashflow>, curve: DiscountCurve)
    ensures Pv(a + b, curve) == Pv(a, curve) + Pv(b, curve)
    decreases |b|
  {
    if b == [] {
      assert a + b == a;
    } else {
      var front, last := b[..|b| - 1], b[|b| - 1];
      assert b == front + [last];
      assert a + b == (a + front) + [last];
      PvAppend(a, front, curve);
      PvSnoc(a + front, last, curve);
      PvSnoc(front, last, curve);
    }
  }

  /** The coupons of a fixed leg are worth the rate times the annuity. */
  lemma {:induction false} FixedCouponsPv(notional: real, rate: real, schedule: seq<Date>, dayCount: DayCount, curve: DiscountCurve)
    ensures Pv(FixedCoupons(notional, rate, schedule, dayCount), curve) == rate * Annuity(notional, schedule, dayCount, curve)
    decreases |schedule|
  {
    if |schedule| >= 2 {
      var n := |schedule|;
      var tau := dayCount(schedule[n - 2], schedule[n - 1]);
      var df := curve(schedule[n - 1]);
      var last := Cashflow(schedule[n - 1], FixedCoupon(notional, rate, schedule[n - 2], schedule[n - 1], dayCount));
      FixedCouponsStep(notional, rate, schedule, dayCount, n - 1);
      assert schedule[..n] == schedule;
      PvSnoc(FixedCoupons(notional, rate, schedule[..n - 1], dayCount), last, curve);
      FixedCouponsPv(notional, rate, schedule[..n - 1], dayCount, curve);
      assert Discounted(last, curve) == rate * (notional * tau * df);
    }
  }

  /** Discounted at the projection curve, one floating coupon is the
      notional times the fall of the discount factor over its period plus the
      spread times the period's annuity term. */
  lemma FloatingCouponPv(notional: real, spread: real, start: Date, end: Date, dayCount: DayCount, curve: DiscountCurve)
    requires PeriodDefined(start, end, dayCount, curve)
    ensures FloatingCoupon(notional, spread, start, end, dayCount, curve) * curve(end)
      == notional * (curve(start) - curve(end)) + spread * (notional * dayCount(start, end) * curve(end))
  {
    var tau := dayCount(start, end);
    var ratio := curve(start) / curve(end);
    FloatingCouponSplit(notional, spread, start, end, dayCount, curve);
    assert ratio * curve(end) == curve(start);
    calc {
      FloatingCoupon(notional, spread, start, end, dayCount, curve) * curve(end);
      (notional * (ratio - 1.0) + notional * spread * tau) * curve(end);
      notional * (ratio * curve(end) - curve(end)) + spread * (notional * tau * curve(end));
      notional * (curve(start) - curve(end)) + spread * (notional * tau * curve(end));
    }
  }

  /** Two lists of flows on the same dates add up, flow by flow, to a third:
      the third's value is the sum of theirs. */
  lemma {:induction false} PvUpToSum(a: seq<Cashflow>, b: seq<Cashflow>, c: seq<Cashflow>, n: nat, curve: DiscountCurve)
    requires n <= |a| && |a| == |b| == |c|
    requires forall i :: 0 <= i < |c| ==>
               a[i].date == c[i].date && b[i].date == c[i].date && c[i].amount == a[i].amount + b[i].amount
    ensures PvUpTo(c, n, curve) == PvUpTo(a, n, curve) + PvUpTo(b, n, curve)
    decreases n
  {
    if n > 0 {
      PvUpToSum(a, b, c, n - 1, curve);
      var d := curve(c[n - 1].date);
      assert (a[n - 1].amount + b[n - 1].amount) * d == a[n - 1].amount * d + b[n - 1].amount * d;
    }
  }

  /** A floating coupon with a spread pays the coupon without spread plus a
      fixed coupon at the spread. */
  lemma FloatingCouponSpread(notional: real, spread: real, start: Date, end: Date, dayCount: DayCount, curve: DiscountCurve)
    requires PeriodDefined(start, end, dayCount, curve)
    ensures FloatingCoupon(notional, spread, start, end, dayCount, curve)
      == FloatingCoupon(notional, 0.0, start, end, dayCount, curve) + FixedCoupon(notional, spread, start, end, dayCount)
  {
    FloatingCouponSplit(notional, spread, start, end, dayCount, curve);
    FloatingCouponSplit(notional, 0.0, start, end, dayCount, curve);
  }

  /** The spread of a floating leg is worth what fixed coupons at that rate are worth. */
  lemma FloatingCouponsSpreadPv(notional: real, spread: real, schedule: seq<Date>, dayCount: DayCount, curve: DiscountCurve)
    requires ForwardsDefined(schedule, dayCount, curve)
    ensures Pv(FloatingCoupons(notional, spread, schedule, dayCount, curve), curve)
      == Pv(FloatingCoupons(notional, 0.0, schedule, dayCount, curve), curve)
         + Pv(FixedCoupons(notional, spread, schedule, dayCount), curve)
  {
    var withSpread := FloatingCoupons(notional, spread, schedule, dayCount, curve);
    var noSpread := FloatingCoupons(notional, 0.0, schedule, dayCount, curve);
    var fixed := FixedCoupons(notional, spread, schedule, dayCount);
    forall k | 0 <= k < |withSpread|
      ensures noSpread[k].date == withSpread[k].date && fixed[k].date == withSpread[k].date
      ensures withSpread[k].amount == noSpread[k].amount + fixed[k].amount
    {
      FloatingCouponsAt(notional, spread, schedule, dayCount, curve, k);
      FloatingCouponsAt(notional, 0.0, schedule, dayCount, curve, k);
      FixedCouponsAt(notional, spread, schedule, dayCount, k);
      FloatingCouponSpread(notional, spread, schedule[k], schedule[k + 1], dayCount, curve);
    }
    PvUpToSum(noSpread, fixed, withSpread, |withSpread|, curve);
  }

  /** Without spread, the floating coupons of a schedule telescope: with a
      single curve for projection and discounting they are worth the
      notional times DF(first date) - DF(last date). */
  lemma {:induction false} FloatingCouponsParPv(notional: real, schedule: seq<Date>, dayCount: DayCount, curve: DiscountCurve)
    requires ForwardsDefined(schedule, dayCount, curve)
    requires |schedule| > 0
    ensures Pv(FloatingCoupons(notional, 0.0, schedule, dayCount, curve), curve)
      == notional * curve(schedule[0]) - notional * curve(schedule[|schedule| - 1])
    decreases |schedule|
  {
    if |schedule| >= 2 {
      var start, end := schedule[|schedule| - 2], schedule[|schedule| - 1];
      ForwardsDefinedPrefix(schedule, dayCount, curve, |schedule| - 1);
      FloatingCouponsParPv(notional, schedule[..|schedule| - 1], dayCount, curve);
      FloatingCouponsLastPv(notional, 0.0, schedule, dayCount, curve);
      FloatingCouponPv(notional, 0.0, start, end, dayCount, curve);
    }
  }

  /** The floating coupons of a schedule are worth the notional times
      DF(first date) - DF(last date), plus the spread times the annuity. */
  lemma FloatingCouponsPv(notional: real, spread: real, schedule: seq<Date>, dayCount: DayCount, curve: DiscountCurve)
    requires ForwardsDefined(schedule, dayCount, curve)
    requires |schedule| > 0
    ensures Pv(FloatingCoupons(notional, spread, schedule, dayCount, curve), curve)
      == notional * (curve(schedule[0]) - curve(schedule[|schedule| - 1]))
         + spread * Annuity(notional, schedule, dayCount, curve)
  {
    FloatingCouponsSpreadPv(notional, spread, schedule, dayCount, curve);
    FloatingCouponsParPv(notional, schedule, dayCount, curve);
    FixedCouponsPv(notional, spread, schedule, dayCount, curve);
  }

  /** The last floating coupon adds its discounted amount to the coupons before it. */
  lemma FloatingCouponsLastPv(notional: real, spread: real, schedule: seq<Date>, dayCount: DayCount, curve: DiscountCurve)
    requires ForwardsDefined(schedule, dayCount, curve)
    requires |schedule| >= 2
    ensures ForwardsDefined(schedule[..|schedule| - 1], dayCount, curve)
    ensures PeriodDefined(schedule[|schedule| - 2], schedule[|schedule| - 1], dayCount, curve)
    ensures Pv(FloatingCoupons(notional, spread, schedule, dayCount, curve), curve)
      == Pv(FloatingCoupons(notional, spread, schedule[..|schedule| - 1], dayCount, curve), curve)
         + FloatingCoupon(notional, spread, schedule[|schedule| - 2], schedule[|schedule| - 1], dayCount, curve)
           * curve(schedule[|schedule| - 1])
  {
    FloatingCouponsStep(notional, spread, schedule, dayCount, curve, |schedule| - 1);
    assert schedule[..|schedule|] == schedule;
    PvSnoc(FloatingCoupons(notional, spread, schedule[..|schedule| - 1], dayCount, curve),
           Cashflow(schedule[|schedule| - 1],
                    FloatingCoupon(notional, spread, schedule[|schedule| - 2], schedule[|schedule| - 1], dayCount, curve)),
           curve);
  }

  /** Value of a leg's notional exchange: the notional received at maturity
      less the notional paid at the effective date, both discounted. */
  function ExchangeValue(notional: real, effective: Date, maturity: Date, curve: DiscountCurve, exchange: bool): real
  {
    if exchange then notional * curve(maturity) - notional * curve(effective) else 0.0
  }

  /** The two notional-exchange entries discount to the exchange value. */
  lemma ExchangePv(notional: real, effective: Date, maturity: Date, curve: DiscountCurve, exchange: bool)
    ensures Pv(InitialExchange(notional, effective, exchange), curve)
            + Pv(FinalExchange(notional, maturity, exchange), curve)
         == ExchangeValue(notional, effective, maturity, curve, exchange)
  {
    var first := InitialExchange(notional, effective, exchange);
    var last := FinalExchange(notional, maturity, exchange);
    if exchange {
      assert Pv(first, curve) == PvUpTo(first, 0, curve) + Discounted(first[0], curve);
      assert Pv(last, curve) == PvUpTo(last, 0, curve) + Discounted(last[0], curve);
      assert Pv(first, curve) == -notional * curve(effective);
      assert Pv(last, curve) == notional * curve(maturity);
    }
  }

  /** A fixed leg's present value in closed form: its notional exchange plus
      the rate times the annuity. */
  lemma FixedLegPv(notional: real, rate: real, effective: Date, maturity: Date, schedule: seq<Date>,
                   dayCount: DayCount, curve: DiscountCurve, exchange: bool)
    ensures Pv(FixedLeg(notional, rate, effective, maturity, schedule, dayCount, exchange), curve)
      == ExchangeValue(notional, effective, maturity, curve, exchange) + rate * Annuity(notional, schedule, dayCount, curve)
  {
    var first := InitialExchange(notional, effective, exchange);
    var last := FinalExchange(notional, maturity, exchange);
    var coupons := FixedCoupons(notional, rate, schedule, dayCount);
    PvAppend(first + coupons, last, curve);
    PvAppend(first, coupons, curve);
    FixedCouponsPv(notional, rate, schedule, dayCount, curve);
    ExchangePv(notional, effective, maturity, curve, exchange);
  }

  /** A fixed leg's present value is affine in its rate: PV(r) = PV(0) + r * annuity. */
  lemma FixedLegPvLinear(notional: real, rate: real, effective: Date, maturity: Date, schedule: seq<Date>,
                         dayCount: DayCount, curve: DiscountCurve, exchange: bool)
    ensures Pv(FixedLeg(notional, rate, effective, maturity, schedule, dayCount, exchange), curve)
      == Pv(FixedLeg(notional, 0.0, effective, maturity, schedule, dayCount, exchange), curve)
         + rate * Annuity(notional, schedule, dayCount, curve)
  {
    FixedLegPv(notional, rate, effective, maturity, schedule, dayCount, curve, exchange);
    FixedLegPv(notional, 0.0, effective, maturity, schedule, dayCount, curve, exchange);
  }

  /** At rate zero a fixed leg is worth just its notional exchange. */
  lemma FixedLegZeroRatePv(notional: real, effective: Date, maturity: Date, schedule: seq<Date>,
                           dayCount: DayCount, curve: DiscountCurve, exchange: bool)
    ensures Pv(FixedLeg(notional, 0.0, effective, maturity, schedule, dayCount, exchange), curve)
      == (if exchange then notional * curve(maturity) - notional * curve(effective) else 0.0)
  {
    FixedLegPv(notional, 0.0, effective, maturity, schedule, dayCount, curve, exchange);
  }

  /** A floating leg's present value in closed form: the notional exchange,
      the notional times the fall of the discount factor over the schedule,
      and the spread times the annuity. */
  lemma FloatingLegPv(notional: real, spread: real, effective: Date, maturity: Date, schedule: seq<Date>,
                      dayCount: DayCount, curve: DiscountCurve, exchange: bool)
    requires ForwardsDefined(schedule, dayCount, curve)
    requires |schedule| > 0
    ensures Pv(FloatingLeg(notional, spread, effective, maturity, schedule, dayCount, curve, exchange), curve)
      == ExchangeValue(notional, effective, maturity, curve, exchange)
         + notional * (curve(schedule[0]) - curve(schedule[|schedule| - 1]))
         + spread * Annuity(notional, schedule, dayCount, curve)
  {
    var first := InitialExchange(notional, effective, exchange);
    var last := FinalExchange(notional, maturity, exchange);
    var coupons := FloatingCoupons(notional, spread, schedule, dayCount, curve);
    PvAppend(first + coupons, last, curve);
    PvAppend(first, coupons, curve);
    FloatingCouponsPv(notional, spread, schedule, dayCount, curve);
    ExchangePv(notional, effective, maturity, curve, exchange);
  }

  /** A floating leg's present value is affine in its spread: PV(s) = PV(0) + s * annuity. */
  lemma FloatingLegPvLinear(notional: real, spread: real, effective: Date, maturity: Date, schedule: seq<Date>,
                            dayCount: DayCount, curve: DiscountCurve, exchange: bool)
    requires ForwardsDefined(schedule, dayCount, curve)
    ensures Pv(FloatingLeg(notional, spread, effective, maturity, schedule, dayCount, curve, exchange), curve)
      == Pv(FloatingLeg(notional, 0.0, effective, maturity, schedule, dayCount, curve, exchange), curve)
         + spread * Annuity(notional, schedule, dayCount, curve)
  {
    if |schedule| > 0 {
      FloatingLegPv(notional, spread, effective, maturity, schedule, dayCount, curve, exchange);
      FloatingLegPv(notional, 0.0, effective, maturity, schedule, dayCount, curve, exchange);
    } else {
      var first := InitialExchange(notional, effective, exchange);
      var last := FinalExchange(notional, maturity, exchange);
      assert FloatingLeg(notional, spread, effective, maturity, schedule, dayCount, curve, exchange) == first + last;
      assert FloatingLeg(notional, 0.0, effective, maturity, schedule, dayCount, curve, exchange) == first + last;
    }
  }

  /** Single-curve par property: a floating leg without spread whose
      schedule runs from the effective date to maturity, notionals
      exchanged, is worth exactly zero. */
  lemma FloatingLegAtPar(notional: real, effective: Date, maturity: Date, schedule: seq<Date>,
                         dayCount: DayCount, curve: DiscountCurve)
    requires ForwardsDefined(schedule, dayCount, curve)
    requires |schedule| > 0 && schedule[0] == effective && schedule[|schedule| - 1] == maturity
    ensures Pv(FloatingLeg(notional, 0.0, effective, maturity, schedule, dayCount, curve, true), curve) == 0.0
  {
    FloatingLegPv(notional, 0.0, effective, maturity, schedule, dayCount, curve, true);
  }

  /** Cash-flow level detail of one discounted leg: one entry per flow in
      each of the four lists, and the leg's total. */
  class LegDetail {
    var currency: string
    var dates: seq<Date>
    var amounts: seq<real>
    var discountFactors: seq<real>
    var presentValues: seq<real>
    var pvTotal: real

    constructor (currency: string)
      ensures this.currency == currency
      ensures dates == [] && amounts == [] && discountFactors == [] && presentValues == []
      ensures pvTotal == 0.0
    {
      this.currency := currency;
      dates, amounts, discountFactors, presentValues := [], [], [], [];
      pvTotal := 0.0;
    }

    /** Appends one flow's entry to each of the four lists. */
    method Append(date: Date, amount: real, df: real, pv: real)
      modifies this
      ensures currency == old(currency) && pvTotal == old(pvTotal)
      ensures dates == old(dates) + [date] && amounts == old(amounts) + [amount]
      ensures discountFactors == old(discountFactors) + [df] && presentValues == old(presentValues) + [pv]
    {
      dates := dates + [date];
      amounts := amounts + [amount];
      discountFactors := discountFactors + [df];
      presentValues := presentValues + [pv];
    }

    /** The four lists are those recorded for the given flows on the curve. */
    predicate Records(flows: seq<Cashflow>, curve: DiscountCurve)
      reads this`dates, this`amounts, this`discountFactors, this`presentValues
    {
      && dates == DatesUpTo(flows, |flows|)
      && amounts == AmountsUpTo(flows, |flows|)
      && discountFactors == DiscountFactorsUpTo(flows, curve, |flows|)
      && presentValues == PresentValuesUpTo(flows, curve, |flows|)
    }
  }

  /** The dates recorded for the first n flows. */
  function DatesUpTo(flows: seq<Cashflow>, n: nat): (dates: seq<Date>)
    requires n <= |flows|
    ensures |dates| == n
    decreases n
  {
    if n == 0 then [] else DatesUpTo(flows, n - 1) + [flows[n - 1].date]
  }

  /** The amounts recorded for the first n flows. */
  function AmountsUpTo(flows: seq<Cashflow>, n: nat): (amounts: seq<real>)
    requires n <= |flows|
    ensures |amounts| == n
    decreases n
  {
    if n == 0 then [] else AmountsUpTo(flows, n - 1) + [flows[n - 1].amount]
  }

  /** The discount factors recorded for the first n flows. */
  function DiscountFactorsUpTo(flows: seq<Cashflow>, curve: DiscountCurve, n: nat): (dfs: seq<real>)
    requires n <= |flows|
    ensures |dfs| == n
    decreases n
  {
    if n == 0 then [] else DiscountFactorsUpTo(flows, curve, n - 1) + [curve(flows[n - 1].date)]
  }

  /** The present values recorded for the first n flows. */
  function PresentValuesUpTo(flows: seq<Cashflow>, curve: DiscountCurve, n: nat): (pvs: seq<real>)
    requires n <= |flows|
    ensures |pvs| == n
    decreases n
  {
    if n == 0 then [] else PresentValuesUpTo(flows, curve, n - 1) + [Discounted(flows[n - 1], curve)]
  }

  /** Entry k of a leg detail belongs to flow k: its date, its amount, the
      curve's discount factor on its date, and amount times that factor. */
  lemma {:induction false} RecordedEntry(flows: seq<Cashflow>, curve: DiscountCurve, n: nat, k: nat)
    requires k < n <= |flows|
    ensures DatesUpTo(flows, n)[k] == flows[k].date
    ensures AmountsUpTo(flows, n)[k] == flows[k].amount
    ensures DiscountFactorsUpTo(flows, curve, n)[k] == curve(flows[k].date)
    ensures PresentValuesUpTo(flows, curve, n)[k]
         == AmountsUpTo(flows, n)[k] * DiscountFactorsUpTo(flows, curve, n)[k]
    decreases n
  {
    if k < n - 1 {
      RecordedEntry(flows, curve, n - 1, k);
    }
  }

  /** The recorded present values add up to the present value of the
      recorded flows. */
  lemma {:induction false} RecordedTotal(flows: seq<Cashflow>, curve: DiscountCurve, n: nat)
    requires n <= |flows|
    ensures Sum(PresentValuesUpTo(flows, curve, n)) == PvUpTo(flows, n, curve)
    decreases n
  {
    if n > 0 {
      RecordedTotal(flows, curve, n - 1);
      SumUpToSnoc(PresentValuesUpTo(flows, curve, n - 1), Discounted(flows[n - 1], curve), n - 1);
    }
  }

  /** Appending a number leaves the sums of the earlier prefixes alone. */
  lemma {:induction false} SumUpToSnoc(xs: seq<real>, x: real, n: nat)
    requires n <= |xs|
    ensures SumUpTo(xs + [x], n) == SumUpTo(xs, n)
    decreases n
  {
    if n > 0 {
      SumUpToSnoc(xs, x, n - 1);
      assert (xs + [x])[n - 1] == xs[n - 1];
    }
  }

  /** Discounts a list of flows on a curve, recording each flow's detail and
      accumulating the total present value. */
  method PvCashflows(cashflows: seq<Cashflow>, curve: DiscountCurve, currencyLabel: string) returns (detail: LegDetail)
    ensures fresh(detail)
    ensures detail.currency == currencyLabel
    ensures detail.Records(cashflows, curve)
    ensures detail.pvTotal == Sum(detail.presentValues)
    ensures detail.pvTotal == Pv(cashflows, curve)
  {
    detail := new LegDetail(currencyLabel);
    var totalPv := 0.0;
    for i := 0 to |cashflows|
      invariant detail.currency == currencyLabel
      invariant detail.dates == DatesUpTo(cashflows, i)
      invariant detail.amounts == AmountsUpTo(cashflows, i)
      invariant detail.discountFactors == DiscountFactorsUpTo(cashflows, curve, i)
      invariant detail.presentValues == PresentValuesUpTo(cashflows, curve, i)
      invariant totalPv == PvUpTo(cashflows, i, curve)
    {
      var date := cashflows[i].date;
      var amount := cashflows[i].amount;
      var df := curve(date);
      var pv := amount * df;
      assert pv == Discounted(cashflows[i], curve);
      totalPv := totalPv + pv;
      detail.Append(date, amount, df, pv);
    }
    RecordedTotal(cashflows, curve, |cashflows|);
    detail.pvTotal := totalPv;
  }
}
