/** The two leg builders of the pricer: a schedule of dates becomes a list
    of dated amounts, optionally framed by the exchange of notionals (paid
    at the effective date, received back at maturity). */
module Legs {
  import opened Cashflows

  /** Coupon of one fixed period: notional times rate times the period's year fraction. */
  function FixedCoupon(notional: real, rate: real, start: Date, end: Date, dayCount: DayCount): real
  {
    notional * rate * dayCount(start, end)
  }

  /** Simple forward rate of the period [start, end] implied by the curve:
      one unit accrued at it over the period grows from DF(end) back to DF(start). */
  function ForwardRate(start: Date, end: Date, dayCount: DayCount, curve: DiscountCurve): (fwd: real)
    requires PeriodDefined(start, end, dayCount, curve)
    ensures (1.0 + fwd * dayCount(start, end)) * curve(end) == curve(start)
  {
    (curve(start) / curve(end) - 1.0) / dayCount(start, end)
  }

  /** Projected payment of one floating period: notional times (forward plus spread) times the year fraction. */
  function FloatingCoupon(notional: real, spread: real, start: Date, end: Date, dayCount: DayCount, curve: DiscountCurve): real
    requires PeriodDefined(start, end, dayCount, curve)
  {
    notional * (ForwardRate(start, end, dayCount, curve) + spread) * dayCount(start, end)
  }

  /** The fixed coupons of a schedule, one per period, each paid at the end of its period. */
  function FixedCoupons(notional: real, rate: real, schedule: seq<Date>, dayCount: DayCount): (cs: seq<Cashflow>)
    ensures |cs| == PeriodCount(schedule)
    decreases |schedule|
  {
    if |schedule| < 2 then []
    else
      var n := |schedule|;
      FixedCoupons(notional, rate, schedule[..n - 1], dayCount)
        + [Cashflow(schedule[n - 1], FixedCoupon(notional, rate, schedule[n - 2], schedule[n - 1], dayCount))]
  }

  /** The projected floating coupons of a schedule, one per period, each paid at the end of its period. */
  function FloatingCoupons(notional: real, spread: real, schedule: seq<Date>, dayCount: DayCount, curve: DiscountCurve): (cs: seq<Cashflow>)
    requires ForwardsDefined(schedule, dayCount, curve)
    ensures |cs| == PeriodCount(schedule)
    decreases |schedule|
  {
    if |schedule| < 2 then []
    else
      var n := |schedule|;
      FloatingCoupons(notional, spread, schedule[..n - 1], dayCount, curve)
        + [Cashflow(schedule[n - 1], FloatingCoupon(notional, spread, schedule[n - 2], schedule[n - 1], dayCount, curve))]
  }

  /** The k-th fixed coupon is paid at the end of the k-th period. */
  lemma {:induction false} FixedCouponsAt(notional: real, rate: real, schedule: seq<Date>, dayCount: DayCount, k: int)
    requires 0 <= k < PeriodCount(schedule)
    ensures FixedCoupons(notional, rate, schedule, dayCount)[k]
      == Cashflow(schedule[k + 1], FixedCoupon(notional, rate, schedule[k], schedule[k + 1], dayCount))
    decreases |schedule|
  {
    var n := |schedule|;
    if k < n - 2 {
      var front := schedule[..n - 1];
      FixedCouponsAt(notional, rate, front, dayCount, k);
      assert front[k] == schedule[k] && front[k + 1] == schedule[k + 1];
    }
  }

  /** The k-th floating coupon is paid at the end of the k-th period. */
  lemma {:induction false} FloatingCouponsAt(notional: real, spread: real, schedule: seq<Date>, dayCount: DayCount,
                                             curve: DiscountCurve, k: int)
    requires ForwardsDefined(schedule, dayCount, curve)
    requires 0 <= k < PeriodCount(schedule)
    ensures PeriodDefined(schedule[k], schedule[k + 1], dayCount, curve)
    ensures FloatingCoupons(notional, spread, schedule, dayCount, curve)[k]
      == Cashflow(schedule[k + 1], FloatingCoupon(notional, spread, schedule[k], schedule[k + 1], dayCount, curve))
    decreases |schedule|
  {
    var n := |schedule|;
    if k < n - 2 {
      var front := schedule[..n - 1];
      ForwardsDefinedPrefix(schedule, dayCount, curve, n - 1);
      FloatingCouponsAt(notional, spread, front, dayCount, curve, k);
      assert front[k] == schedule[k] && front[k + 1] == schedule[k + 1];
    }
  }

  /** Extending the schedule by one date appends that period's coupon. */
  lemma FixedCouponsStep(notional: real, rate: real, schedule: seq<Date>, dayCount: DayCount, i: int)
    requires 1 <= i < |schedule|
    ensures FixedCoupons(notional, rate, schedule[..i + 1], dayCount)
      == FixedCoupons(notional, rate, schedule[..i], dayCount)
         + [Cashflow(schedule[i], FixedCoupon(notional, rate, schedule[i - 1], schedule[i], dayCount))]
  {
    assert schedule[..i + 1][..i] == schedule[..i];
  }

  /** Every prefix of a schedule whose forwards are defined has its forwards defined. */
  lemma ForwardsDefinedPrefix(schedule: seq<Date>, dayCount: DayCount, curve: DiscountCurve, i: int)
    requires ForwardsDefined(schedule, dayCount, curve)
    requires 0 <= i <= |schedule|
    ensures ForwardsDefined(schedule[..i], dayCount, curve)
  {
    var prefix := schedule[..i];
    forall a, b | 0 <= a < |prefix| - 1 && b == a + 1
      ensures PeriodDefined(prefix[a], prefix[b], dayCount, curve)
    {
      assert prefix[a] == schedule[a] && prefix[b] == schedule[b];
    }
  }

  /** Extending the schedule by one date appends that period's projected coupon. */
  lemma FloatingCouponsStep(notional: real, spread: real, schedule: seq<Date>, dayCount: DayCount, curve: DiscountCurve, i: int)
    requires ForwardsDefined(schedule, dayCount, curve)
    requires 1 <= i < |schedule|
    ensures ForwardsDefined(schedule[..i], dayCount, curve)
    ensures PeriodDefined(schedule[i - 1], schedule[i], dayCount, curve)
    ensures FloatingCoupons(notional, spread, schedule[..i + 1], dayCount, curve)
      == FloatingCoupons(notional, spread, schedule[..i], dayCount, curve)
         + [Cashflow(schedule[i], FloatingCoupon(notional, spread, schedule[i - 1], schedule[i], dayCount, curve))]
  {
    assert schedule[..i + 1][..i] == schedule[..i];
  }

  /** Notional paid at the effective date, if notionals are exchanged. */
  function InitialExchange(notional: real, effective: Date, exchange: bool): seq<Cashflow>
  {
    if exchange then [Cashflow(effective, -notional)] else []
  }

  /** Notional received back at maturity, if notionals are exchanged. */
  function FinalExchange(notional: real, maturity: Date, exchange: bool): seq<Cashflow>
  {
    if exchange then [Cashflow(maturity, notional)] else []
  }

  /** A fixed leg: the initial exchange, the coupons in schedule order, the final exchange. */
  function FixedLeg(notional: real, rate: real, effective: Date, maturity: Date, schedule: seq<Date>,
                    dayCount: DayCount, exchange: bool): seq<Cashflow>
  {
    InitialExchange(notional, effective, exchange)
      + FixedCoupons(notional, rate, schedule, dayCount)
      + FinalExchange(notional, maturity, exchange)
  }

  /** A floating leg: the initial exchange, the projected coupons in schedule order, the final exchange. */
  function FloatingLeg(notional: real, spread: real, effective: Date, maturity: Date, schedule: seq<Date>,
                       dayCount: DayCount, curve: DiscountCurve, exchange: bool): seq<Cashflow>
    requires ForwardsDefined(schedule, dayCount, curve)
  {
    InitialExchange(notional, effective, exchange)
      + FloatingCoupons(notional, spread, schedule, dayCount, curve)
      + FinalExchange(notional, maturity, exchange)
  }

  /** Layout of a fixed leg. With notional exchange it has one entry more
      than the schedule has dates: the notional paid at the effective date
      first, the notional received at maturity last, and between them the
      coupons in schedule order; without exchange only the coupons. The k-th
      coupon is paid at the end of the k-th period and is notional * rate *
      year fraction of that period. */
  lemma FixedLegLayout(notional: real, rate: real, effective: Date, maturity: Date, schedule: seq<Date>,
                       dayCount: DayCount, exchange: bool)
    ensures var leg := FixedLeg(notional, rate, effective, maturity, schedule, dayCount, exchange);
      && |leg| == PeriodCount(schedule) + (if exchange then 2 else 0)
      && (exchange && |schedule| > 0 ==> |leg| == |schedule| + 1)
      && (!exchange && |schedule| > 0 ==> |leg| == |schedule| - 1)
      && (exchange ==> leg[0] == Cashflow(effective, -notional) && leg[|leg| - 1] == Cashflow(maturity, notional))
      && forall k :: 0 <= k < PeriodCount(schedule) ==>
           leg[k + (if exchange then 1 else 0)]
             == Cashflow(schedule[k + 1], notional * rate * dayCount(schedule[k], schedule[k + 1]))
  {
    var head, tail := InitialExchange(notional, effective, exchange), FinalExchange(notional, maturity, exchange);
    var coupons := FixedCoupons(notional, rate, schedule, dayCount);
    var leg := FixedLeg(notional, rate, effective, maturity, schedule, dayCount, exchange);
    assert leg == head + coupons + tail;
    Framed(head, coupons, tail);
    forall k | 0 <= k < PeriodCount(schedule)
      ensures leg[k + |head|] == Cashflow(schedule[k + 1], FixedCoupon(notional, rate, schedule[k], schedule[k + 1], dayCount))
    {
      FixedCouponsAt(notional, rate, schedule, dayCount, k);
    }
    assert |head| == if exchange then 1 else 0;
  }

  /** Layout of a floating leg: as for a fixed leg, with the k-th coupon
      notional * (forward + spread) * year fraction of the k-th period. */
  lemma FloatingLegLayout(notional: real, spread: real, effective: Date, maturity: Date, schedule: seq<Date>,
                          dayCount: DayCount, curve: DiscountCurve, exchange: bool)
    requires ForwardsDefined(schedule, dayCount, curve)
    ensures var leg := FloatingLeg(notional, spread, effective, maturity, schedule, dayCount, curve, exchange);
      && |leg| == PeriodCount(schedule) + (if exchange then 2 else 0)
      && (exchange && |schedule| > 0 ==> |leg| == |schedule| + 1)
      && (!exchange && |schedule| > 0 ==> |leg| == |schedule| - 1)
      && (exchange ==> leg[0] == Cashflow(effective, -notional) && leg[|leg| - 1] == Cashflow(maturity, notional))
      && forall k :: 0 <= k < PeriodCount(schedule) ==>
           leg[k + (if exchange then 1 else 0)]
             == Cashflow(schedule[k + 1], FloatingCoupon(notional, spread, schedule[k], schedule[k + 1], dayCount, curve))
  {
    var head, tail := InitialExchange(notional, effective, exchange), FinalExchange(notional, maturity, exchange);
    var coupons := FloatingCoupons(notional, spread, schedule, dayCount, curve);
    var leg := FloatingLeg(notional, spread, effective, maturity, schedule, dayCount, curve, exchange);
    assert leg == head + coupons + tail;
    Framed(head, coupons, tail);
    forall k | 0 <= k < PeriodCount(schedule)
      ensures PeriodDefined(schedule[k], schedule[k + 1], dayCount, curve)
      ensures leg[k + |head|] == Cashflow(schedule[k + 1], FloatingCoupon(notional, spread, schedule[k], schedule[k + 1], dayCount, curve))
    {
      FloatingCouponsAt(notional, spread, schedule, dayCount, curve, k);
    }
    assert |head| == if exchange then 1 else 0;
  }

  /** Positions in a list framed by a head and a tail. */
  lemma Framed<T>(head: seq<T>, middle: seq<T>, tail: seq<T>)
    ensures |head + middle + tail| == |head| + |middle| + |tail|
    ensures |head| > 0 ==> (head + middle + tail)[0] == head[0]
    ensures |tail| > 0 ==> (head + middle + tail)[|head| + |middle| + |tail| - 1] == tail[|tail| - 1]
    ensures forall k :: 0 <= k < |middle| ==> (head + middle + tail)[|head| + k] == middle[k]
  {
  }

  /** A fixed leg at rate zero pays nothing but the notional exchange. */
  lemma {:induction false} FixedLegAtZeroRate(notional: real, effective: Date, maturity: Date, schedule: seq<Date>,
                                              dayCount: DayCount, exchange: bool, k: int)
    requires 0 <= k < PeriodCount(schedule)
    ensures FixedLeg(notional, 0.0, effective, maturity, schedule, dayCount, exchange)[k + (if exchange then 1 else 0)].amount == 0.0
  {
    FixedLegLayout(notional, 0.0, effective, maturity, schedule, dayCount, exchange);
    var leg := FixedLeg(notional, 0.0, effective, maturity, schedule, dayCount, exchange);
    assert leg[k + (if exchange then 1 else 0)].amount == notional * 0.0 * dayCount(schedule[k], schedule[k + 1]);
  }

  /** A floating coupon is the curve's discount ratio over the period plus the spread accrual:
      notional * (DF(start)/DF(end) - 1) + notional * spread * tau. */
  lemma FloatingCouponSplit(notional: real, spread: real, start: Date, end: Date, dayCount: DayCount, curve: DiscountCurve)
    requires PeriodDefined(start, end, dayCount, curve)
    ensures FloatingCoupon(notional, spread, start, end, dayCount, curve)
      == notional * (curve(start) / curve(end) - 1.0) + notional * spread * dayCount(start, end)
  {
    var tau := dayCount(start, end);
    var ratio := curve(start) / curve(end) - 1.0;
    assert ForwardRate(start, end, dayCount, curve) * tau == ratio;
    calc {
      FloatingCoupon(notional, spread, start, end, dayCount, curve);
      notional * (ForwardRate(start, end, dayCount, curve) + spread) * tau;
      notional * (ForwardRate(start, end, dayCount, curve) * tau) + notional * spread * tau;
      notional * ratio + notional * spread * tau;
    }
  }

  /** The fixed-leg builder: walks the schedule's periods and appends one coupon each,
      between the two notional exchanges. */
  method BuildFixedLeg(notional: real, fixedRate: real, effective: Date, maturity: Date, schedule: seq<Date>,
                       dayCount: DayCount, includeNotionalExchange: bool) returns (cashflows: seq<Cashflow>)
    ensures cashflows == FixedLeg(notional, fixedRate, effective, maturity, schedule, dayCount, includeNotionalExchange)
  {
    cashflows := [];
    if includeNotionalExchange {
      cashflows := cashflows + [Cashflow(effective, -notional)];
    }
    ghost var head := cashflows;
    var i := 1;
    while i < |schedule|
      invariant 1 <= i && (|schedule| > 0 ==> i <= |schedule|)
      invariant head == InitialExchange(notional, effective, includeNotionalExchange)
      invariant |schedule| > 0 ==> cashflows == head + FixedCoupons(notional, fixedRate, schedule[..i], dayCount)
      invariant |schedule| == 0 ==> cashflows == head
    {
      var start := schedule[i - 1];
      var end := schedule[i];
      var tau := dayCount(start, end);
      var coupon := notional * fixedRate * tau;
      FixedCouponsStep(notional, fixedRate, schedule, dayCount, i);
      assert coupon == FixedCoupon(notional, fixedRate, start, end, dayCount);
      assert (cashflows + [Cashflow(end, coupon)])
        == head + FixedCoupons(notional, fixedRate, schedule[..i + 1], dayCount);
      cashflows := cashflows + [Cashflow(end, coupon)];
      i := i + 1;
    }
    assert |schedule| > 0 ==> schedule[..i] == schedule;
    if includeNotionalExchange {
      cashflows := cashflows + [Cashflow(maturity, notional)];
    }
  }

  /** The floating-leg builder: projects each period's forward from the curve and appends
      notional * (forward + spread) * tau, between the two notional exchanges. */
  method BuildFloatingLeg(notional: real, spread: real, effective: Date, maturity: Date, schedule: seq<Date>,
                          dayCount: DayCount, curve: DiscountCurve, includeNotionalExchange: bool)
    returns (cashflows: seq<Cashflow>)
    requires ForwardsDefined(schedule, dayCount, curve)
    ensures cashflows == FloatingLeg(notional, spread, effective, maturity, schedule, dayCount, curve, includeNotionalExchange)
  {
    cashflows := [];
    if includeNotionalExchange {
      cashflows := cashflows + [Cashflow(effective, -notional)];
    }
    ghost var head := cashflows;
    var i := 1;
    if |schedule| > 0 {
      ForwardsDefinedPrefix(schedule, dayCount, curve, 1);
    }
    while i < |schedule|
      invariant 1 <= i && (|schedule| > 0 ==> i <= |schedule|)
      invariant head == InitialExchange(notional, effective, includeNotionalExchange)
      invariant |schedule| > 0 ==> ForwardsDefined(schedule[..i], dayCount, curve)
      invariant |schedule| > 0 ==> cashflows == head + FloatingCoupons(notional, spread, schedule[..i], dayCount, curve)
      invariant |schedule| == 0 ==> cashflows == head
    {
      FloatingCouponsStep(notional, spread, schedule, dayCount, curve, i);
      var start := schedule[i - 1];
      var end := schedule[i];
      var tau := dayCount(start, end);
      var dfStart := curve(start);
      var dfEnd := curve(end);
      var fwdRate := (dfStart / dfEnd - 1.0) / tau;
      var payment := notional * (fwdRate + spread) * tau;
      assert (cashflows + [Cashflow(end, payment)])
        == head + FloatingCoupons(notional, spread, schedule[..i + 1], dayCount, curve) by {
        assert payment == FloatingCoupon(notional, spread, start, end, dayCount, curve);
      }
      cashflows := cashflows + [Cashflow(end, payment)];
      ForwardsDefinedPrefix(schedule, dayCount, curve, i + 1);
      i := i + 1;
    }
    if |schedule| > 0 {
      assert schedule[..i] == schedule;
    }
    assert cashflows == InitialExchange(notional, effective, includeNotionalExchange)
                        + FloatingCoupons(notional, spread, schedule, dayCount, curve);
    if includeNotionalExchange {
      cashflows := cashflows + [Cashflow(maturity, notional)];
    }
  }
}
