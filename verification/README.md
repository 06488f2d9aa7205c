# Cross-currency swap pricer: leg algebra

A Dafny model of the part of `xccy_swap_pricer.py` that the pricer computes
itself, rather than leaving to QuantLib. That part covers:

- how a fixed and a floating leg are laid out as dated amounts;
- how a leg is discounted flow by flow into an `XCCYLegDetail`;
- how the three pricers (fixed-fixed, fixed-floating, float-float) turn two
  leg values and a spot rate into the domestic and foreign NPV;
- how they solve for the fair domestic fixed rate or basis spread.

Dates are integers. A coupon schedule is a given sequence of dates. The day
counter (`yearFraction`) and a discount curve (`discount`) are function
parameters. Amounts are exact reals.

Modules:

- `Cashflows` (`cashflows.dfy`) holds dates, cash flows, the result type and
  the condition under which a period's forward can be computed.
- `Legs` (`legs.dfy`) holds the two leg builders. They are loops specified by
  recursive functions over the schedule, with layout and coupon lemmas.
- `PresentValue` (`present_value.dfy`) discounts flows and holds the
  `LegDetail` class, which is filled in place as in the source. It also holds
  the closed forms of a leg's value. Those make the value affine in the rate
  or spread, with the leg's annuity as slope.
- `XccyPricer` (`xccy_pricer.dfy`) holds the NPV and FX arithmetic, the
  fair-value solve with its two tolerances (`1e-10` on the annuity, `1e-12` on
  the basis spread), the three pricers and the round-trip lemmas.

The main results:

- The fixed-rate and basis-spread solves round-trip exactly. Repricing the
  domestic leg at the solved value makes the domestic NPV zero whenever the
  annuity exceeds the tolerance. Otherwise the solved value is 0.
- The float-float pricer's two ways of getting the annuity always agree.
  Those are the finite difference between two leg values and the direct sum.

Division by zero follows the code. A zero spot rate makes the conversion of
the NPV into foreign currency fail (`ZeroSpotFx`). A zero domestic fixed rate
makes the finite-difference annuity fail (`ZeroDomesticFixedRate`). Both are
modelled as `Failure` results, raised in the order the code divides. The
floating builder also divides, by the year fraction and by the end discount
factor. Those two values come from the day counter and the curve, so the
model demands them as a precondition (`ForwardsDefined`) rather than as an
error path. `PositiveMarketDefinesForwards` shows that an increasing schedule
with a positive day counter and positive discount factors meets it.

## Model

| member | source | states |
|---|---|---|
| Cashflows.PositiveMarketDefinesForwards | xccy_swap_pricer.py:175-181 | with increasing schedule dates, positive year fractions and positive discount factors, every period's forward `(DF(start)/DF(end) - 1)/tau` has non-zero divisors |
| Legs.ForwardRate | xccy_swap_pricer.py:175-181 | the simple forward `(DF(start)/DF(end) - 1)/tau` of a period; one unit accrued at it over the period, `1 + fwd * tau`, grows from `DF(end)` back to `DF(start)` |
| Legs.FixedCoupon | xccy_swap_pricer.py:121-122 | definition: the fixed coupon of one period, `notional * rate * tau(start, end)` |
| Legs.FloatingCoupon | xccy_swap_pricer.py:184 | definition: the projected coupon of one period, `notional * (fwd + spread) * tau(start, end)` |
| Legs.FixedLeg | xccy_swap_pricer.py:110-129 | definition: the list the fixed builder returns, the initial exchange, the coupons in schedule order, then the final exchange |
| Legs.FloatingLeg | xccy_swap_pricer.py:165-191 | definition: the list the floating builder returns, laid out like the fixed leg |
| Legs.FixedCoupons | xccy_swap_pricer.py:117-123 | the fixed coupons of a schedule number one per period (none for fewer than two dates) |
| Legs.FloatingCoupons | xccy_swap_pricer.py:172-185 | the floating coupons of a schedule number one per period |
| Legs.FixedCouponsAt | xccy_swap_pricer.py:117-123 | the k-th fixed coupon is paid on `schedule[k+1]` and is `notional * rate * tau(schedule[k], schedule[k+1])` |
| Legs.FloatingCouponsAt | xccy_swap_pricer.py:172-185 | the k-th floating coupon is paid on `schedule[k+1]` and is `notional * (fwd + spread) * tau` of that period, whose forward is defined |
| Legs.FixedCouponsStep | xccy_swap_pricer.py:117-123 | one more schedule date appends exactly that period's fixed coupon |
| Legs.FloatingCouponsStep | xccy_swap_pricer.py:172-185 | one more schedule date appends exactly that period's floating coupon |
| Legs.FixedLegLayout | xccy_swap_pricer.py:110-129 | a fixed leg with exchange has `|schedule|+1` entries, first `(effective, -notional)`, last `(maturity, notional)`, coupons in schedule order between; without exchange `|schedule|-1` coupons only |
| Legs.FloatingLegLayout | xccy_swap_pricer.py:165-191 | the same layout for a floating leg, the k-th coupon being `notional * (fwd + spread) * tau` of the k-th period |
| Legs.FixedLegAtZeroRate | xccy_swap_pricer.py:325-331 | at rate zero every fixed coupon amount is zero |
| Legs.FloatingCouponSplit | xccy_swap_pricer.py:175-184 | a floating coupon equals `notional * (DF(start)/DF(end) - 1) + notional * spread * tau` |
| Legs.BuildFixedLeg | xccy_swap_pricer.py:84-129 | the builder's loop returns exactly the fixed leg (exchanges around the coupons) |
| Legs.BuildFloatingLeg | xccy_swap_pricer.py:136-191 | the builder's loop, projecting each forward from the curve, returns exactly the floating leg |
| PresentValue.Discounted | xccy_swap_pricer.py:208-209 | definition: one flow's present value, its amount times the curve's discount factor on its date |
| PresentValue.Pv | xccy_swap_pricer.py:207-216 | definition: the total the discounting loop accumulates, the flows' present values added in list order |
| PresentValue.Annuity | xccy_swap_pricer.py:566-569 | definition: `notional * sum(tau_i * DF(end_i))` over the schedule's periods, the slope of a leg's value in its rate or spread |
| PresentValue.ExchangeValue | xccy_swap_pricer.py:112-127 | definition: `notional * DF(maturity) - notional * DF(effective)` with exchange, zero without |
| PresentValue.PvAppend | xccy_swap_pricer.py:207-210 | the value of two concatenated lists of flows is the sum of their values |
| PresentValue.FixedCouponsPv | xccy_swap_pricer.py:331-332 | the fixed coupons are worth the rate times the annuity `notional * sum(tau_i * DF(end_i))` |
| PresentValue.FloatingCouponPv | xccy_swap_pricer.py:175-184 | one discounted floating coupon is `notional * (DF(start) - DF(end))` plus spread times `notional * tau * DF(end)` |
| PresentValue.FloatingCouponSpread | xccy_swap_pricer.py:184 | a floating coupon is the flat coupon plus a fixed coupon at the spread |
| PresentValue.FloatingCouponsSpreadPv | xccy_swap_pricer.py:553-555 | the floating coupons are worth the flat coupons plus fixed coupons at the spread |
| PresentValue.FloatingCouponsParPv | xccy_swap_pricer.py:149-151 | the flat floating coupons telescope to `notional * (DF(first date) - DF(last date))` |
| PresentValue.FloatingCouponsPv | xccy_swap_pricer.py:553-554 | the floating coupons are worth `notional * (DF(first) - DF(last))` plus spread times the annuity |
| PresentValue.ExchangePv | xccy_swap_pricer.py:112-127 | the two notional exchanges are worth `notional * DF(maturity) - notional * DF(effective)`, or nothing without exchange |
| PresentValue.FixedLegPv | xccy_swap_pricer.py:331-332 | a fixed leg is worth its exchange value plus rate times annuity |
| PresentValue.FixedLegPvLinear | xccy_swap_pricer.py:322-333 | a fixed leg's value is affine in the rate: `PV(r) = PV(0) + r * annuity` |
| PresentValue.FixedLegZeroRatePv | xccy_swap_pricer.py:331 | at rate zero a fixed leg is worth just its notional exchange |
| PresentValue.FloatingLegPv | xccy_swap_pricer.py:553-554 | a floating leg is worth its exchange value, `notional * (DF(first) - DF(last))` and spread times annuity |
| PresentValue.FloatingLegPvLinear | xccy_swap_pricer.py:553-557 | a floating leg's value is affine in the spread: `PV(s) = PV(0) + s * annuity` |
| PresentValue.FloatingLegAtPar | xccy_swap_pricer.py:149-151 | single curve: a flat floating leg with exchange whose schedule runs from effective to maturity is worth zero |
| PresentValue.LegDetail.constructor | xccy_swap_pricer.py:39-48 | a new leg detail has the currency, four empty lists and a zero total |
| PresentValue.LegDetail.Append | xccy_swap_pricer.py:211-214 | appending extends each of the four lists by one entry and changes nothing else |
| PresentValue.RecordedEntry | xccy_swap_pricer.py:206-214 | entry k of the detail lists is flow k's date, its amount, `DF(date)`, and amount times discount factor |
| PresentValue.RecordedTotal | xccy_swap_pricer.py:207-209 | the recorded present values sum to the value of the flows |
| PresentValue.PvCashflows | xccy_swap_pricer.py:198-217 | a fresh detail in the given currency records every flow in input order, and its total is both the sum of its present values and the value of the flows |
| XccyPricer.SwapResults | xccy_swap_pricer.py:50-77 | the pricers' result record, field for field, with the swap-type label and the fair-value description as text |
| XccyPricer.PricingError | xccy_swap_pricer.py:319-333 | the two divisions a pricer can fail at: by spot when converting the NPV into foreign currency, by the domestic fixed rate when reading off the annuity |
| XccyPricer.LegNpv | xccy_swap_pricer.py:315-319 | the foreign value converts at spot, `npvDom = foreign * spot - domestic`, `npvFor * spot = npvDom`; `npvFor` is zero exactly when the legs balance; spot zero fails |
| XccyPricer.SolveFair | xccy_swap_pricer.py:334-337 | above the annuity tolerance the solved value makes `PV(0) + fair * annuity` equal the foreign value in domestic currency; otherwise it is zero |
| XccyPricer.FixedRateAnnuity | xccy_swap_pricer.py:333 | for a non-zero rate `(PV(r) - PV(0)) / r` is exactly the fixed leg's annuity |
| XccyPricer.FixedRateRoundTrip | xccy_swap_pricer.py:333-337 | repricing the domestic fixed leg at the solved rate gives domestic NPV zero when the annuity exceeds 1e-10; otherwise the rate is zero |
| XccyPricer.BasisAnnuitiesAgree | xccy_swap_pricer.py:556-569 | for a non-zero spread the finite-difference annuity equals the direct sum over the schedule |
| XccyPricer.BasisRoundTrip | xccy_swap_pricer.py:572-575 | repricing the domestic floating leg at the solved spread gives domestic NPV zero when the annuity exceeds 1e-10; otherwise the spread is zero |
| XccyPricer.DirectAnnuity | xccy_swap_pricer.py:566-569 | the direct loop returns the annuity `notional * sum(tau_i * DF(end_i))` |
| XccyPricer.FairDomesticFixedRate | xccy_swap_pricer.py:325-337 | fails exactly at a zero domestic rate; otherwise it returns a rate at which the domestic leg is worth the foreign leg in domestic currency (annuity above tolerance), or zero |
| XccyPricer.FairBasisSpread | xccy_swap_pricer.py:545-575 | returns a spread at which the domestic floating leg is worth the foreign leg in domestic currency (annuity above tolerance), or zero, whichever annuity branch is taken |
| XccyPricer.PriceFixedFixed | xccy_swap_pricer.py:224-355 | fails exactly at zero spot (first) or zero domestic rate; otherwise reports both legs' values, detail objects and NPVs consistently and a fair rate that zeroes the NPV |
| XccyPricer.PriceFixedFloating | xccy_swap_pricer.py:362-460 | as for fixed-fixed, with the foreign leg floating over the foreign curve |
| XccyPricer.PriceFloatFloat | xccy_swap_pricer.py:467-593 | fails exactly at zero spot; otherwise reports both floating legs consistently and a fair basis spread that zeroes the NPV |

## Left out

- Schedule generation (`ql.Schedule`, business-day rules, `calendar.advance`): the schedules, the effective date and the maturity date are inputs. The model therefore does not check that the direct-annuity schedule at xccy_swap_pricer.py:560-565 is the one the domestic floating leg was built on. The two are built with the same arguments, and the model passes the same schedule to both.
- The evaluation date and the global `ql.Settings` state: they only feed the date arithmetic above, so they do not appear.
- Day-counter and curve internals: `yearFraction` and `discount` are function parameters. The model does not know that they are positive. It needs non-zero divisors only for the floating forwards (`ForwardsDefined`), as a precondition.
- Default index construction (`ql.USDLibor`, `ql.Euribor6M`): the index's tenor is represented only through the given schedule, and its day counter through a parameter.
- `str(date)` formatting of the recorded dates: dates stay integers.
- IEEE floating-point rounding: amounts are exact reals. The round trips hold exactly in the model and only approximately in floating point. The two tolerances are kept as exact constants.
- `tenor_years`, the frequencies and the calendars: they only feed schedule generation.
- The curve bootstrap (`curves.py`), bond pricing (`bond_pricer.py`), asset swaps (`asset_swap.py`), the single-currency swap pricer (`swap_pricer.py`), the demo (`main.py`) and the plots (`plots.py`) are not part of this model.
