/** The three cross-currency swap pricers. Each builds the domestic and the
    foreign leg, discounts each in its own currency, converts the foreign
    leg's value at spot into domestic currency, reports the NPV of paying
    the domestic leg and receiving the foreign one, and solves for the
    domestic rate (or basis spread) at which that NPV is zero. */
module XccyPricer {
  import opened Cashflows
  import opened Legs
  import opened PresentValue

  /** An annuity no larger than this in magnitude is treated as zero. */
  const AnnuityTolerance: real := 0.0000000001

  /** A domestic basis spread no larger than this in magnitude is treated as
      zero: the annuity is then summed directly instead of being read off
      the two leg values. */
  const SpreadTolerance: real := 0.000000000001

  /** The divisions by zero a pricer can run into. */
  datatype PricingError =
    | ZeroSpotFx             // converting the NPV back into foreign currency
    | ZeroDomesticFixedRate  // reading the annuity off the domestic fixed leg

  /** The valuation figures derived from the two leg values and spot. */
  datatype Npv = Npv(foreignLegPvInDomestic: real, npvDomestic: real, npvForeign: real)

  /** What a pricer returns. */
  datatype SwapResults = SwapResults(
    swapType: string,
    npvDomestic: real,
    npvForeign: real,
    fairValueDescription: string,
    fairValue: real,
    domesticLegPv: real,
    foreignLegPv: real,
    foreignLegPvInDomestic: real,
    domesticCcy: string,
    foreignCcy: string,
    spotFx: real,
    domesticNotional: real,
    foreignNotional: real,
    domesticLegDetail: LegDetail,
    foreignLegDetail: LegDetail)

  /** Values the two legs against each other. Spot is quoted as domestic
      units per foreign unit, so the foreign leg converts into domestic
      currency by multiplication, and the domestic NPV converts back into
      foreign currency by division, which fails at a zero spot. */
  function LegNpv(domesticLegPv: real, foreignLegPv: real, spotFx: real): (r: Result<Npv, PricingError>)
    ensures r.Failure? <==> spotFx == 0.0
    ensures r.Failure? ==> r.error == ZeroSpotFx
    ensures r.Success? ==> r.value.foreignLegPvInDomestic == foreignLegPv * spotFx
    ensures r.Success? ==> r.value.npvDomestic == r.value.foreignLegPvInDomestic - domesticLegPv
    ensures r.Success? ==> r.value.npvForeign * spotFx == r.value.npvDomestic
    ensures r.Success? ==> (r.value.npvForeign == 0.0 <==> foreignLegPv * spotFx == domesticLegPv)
  {
    if spotFx == 0.0 then Failure(ZeroSpotFx)
    else
      var foreignInDomestic := foreignLegPv * spotFx;
      var npvDomestic := foreignInDomestic - domesticLegPv;
      Success(Npv(foreignInDomestic, npvDomestic, npvDomestic / spotFx))
  }

  /** The fair-value solve: the domestic leg is worth pvAtZero plus the
      unknown times the annuity, and the unknown is chosen so that this
      equals the foreign leg's value in domestic currency. A (numerically)
      zero annuity gives zero. */
  function SolveFair(foreignLegPvInDomestic: real, pvAtZero: real, annuity: real): (fair: real)
    ensures Abs(annuity) > AnnuityTolerance ==> pvAtZero + fair * annuity == foreignLegPvInDomestic
    ensures Abs(annuity) <= AnnuityTolerance ==> fair == 0.0
  {
    if Abs(annuity) > AnnuityTolerance then (foreignLegPvInDomestic - pvAtZero) / annuity else 0.0
  }

  /** The annuity read off two valuations of the domestic fixed leg, at its
      rate and at rate zero, is the leg's annuity. */
  lemma FixedRateAnnuity(notional: real, rate: real, effective: Date, maturity: Date, schedule: seq<Date>,
                         dayCount: DayCount, curve: DiscountCurve)
    requires rate != 0.0
    ensures (Pv(FixedLeg(notional, rate, effective, maturity, schedule, dayCount, true), curve)
             - Pv(FixedLeg(notional, 0.0, effective, maturity, schedule, dayCount, true), curve)) / rate
         == Annuity(notional, schedule, dayCount, curve)
  {
    var pvAtRate := Pv(FixedLeg(notional, rate, effective, maturity, schedule, dayCount, true), curve);
    var pvAtZero := Pv(FixedLeg(notional, 0.0, effective, maturity, schedule, dayCount, true), curve);
    FixedLegPvLinear(notional, rate, effective, maturity, schedule, dayCount, curve, true);
    SlopeOfAffine(pvAtRate, pvAtZero, rate, Annuity(notional, schedule, dayCount, curve));
  }

  /** Reading the slope of an affine function off two of its values. */
  lemma SlopeOfAffine(valueAt: real, valueAtZero: real, x: real, slope: real)
    requires x != 0.0
    requires valueAt == valueAtZero + x * slope
    ensures (valueAt - valueAtZero) / x == slope
  {
  }

  /** Round trip of the fixed-rate solve: repricing the domestic fixed leg
      at the solved rate makes it worth exactly the foreign leg in domestic
      currency, so the swap's NPV is zero; when the annuity is within the
      tolerance of zero the solved rate is zero. */
  lemma FixedRateRoundTrip(notional: real, effective: Date, maturity: Date, schedule: seq<Date>,
                           dayCount: DayCount, curve: DiscountCurve, foreignLegPvInDomestic: real)
    ensures var annuity := Annuity(notional, schedule, dayCount, curve);
            var fair := SolveFair(foreignLegPvInDomestic,
                                  Pv(FixedLeg(notional, 0.0, effective, maturity, schedule, dayCount, true), curve),
                                  annuity);
            && (Abs(annuity) > AnnuityTolerance ==>
                  foreignLegPvInDomestic
                  - Pv(FixedLeg(notional, fair, effective, maturity, schedule, dayCount, true), curve) == 0.0)
            && (Abs(annuity) <= AnnuityTolerance ==> fair == 0.0)
  {
    var annuity := Annuity(notional, schedule, dayCount, curve);
    var pvAtZero := Pv(FixedLeg(notional, 0.0, effective, maturity, schedule, dayCount, true), curve);
    var fair := SolveFair(foreignLegPvInDomestic, pvAtZero, annuity);
    FixedLegPvLinear(notional, fair, effective, maturity, schedule, dayCount, curve, true);
  }

  /** The annuity read off two valuations of the domestic floating leg, at
      its spread and at spread zero, is the leg's annuity: the same number
      the direct sum over the schedule gives. */
  lemma BasisAnnuitiesAgree(notional: real, spread: real, effective: Date, maturity: Date, schedule: seq<Date>,
                            dayCount: DayCount, curve: DiscountCurve)
    requires ForwardsDefined(schedule, dayCount, curve)
    requires spread != 0.0
    ensures (Pv(FloatingLeg(notional, spread, effective, maturity, schedule, dayCount, curve, true), curve)
             - Pv(FloatingLeg(notional, 0.0, effective, maturity, schedule, dayCount, curve, true), curve)) / spread
         == Annuity(notional, schedule, dayCount, curve)
  {
    var pvAtSpread := Pv(FloatingLeg(notional, spread, effective, maturity, schedule, dayCount, curve, true), curve);
    var pvFlat := Pv(FloatingLeg(notional, 0.0, effective, maturity, schedule, dayCount, curve, true), curve);
    FloatingLegPvLinear(notional, spread, effective, maturity, schedule, dayCount, curve, true);
    SlopeOfAffine(pvAtSpread, pvFlat, spread, Annuity(notional, schedule, dayCount, curve));
  }

  /** Round trip of the basis-spread solve: repricing the domestic floating
      leg at the solved spread makes the swap's NPV zero; when the annuity
      is within the tolerance of zero the solved spread is zero. */
  lemma BasisRoundTrip(notional: real, effective: Date, maturity: Date, schedule: seq<Date>,
                       dayCount: DayCount, curve: DiscountCurve, foreignLegPvInDomestic: real)
    requires ForwardsDefined(schedule, dayCount, curve)
    ensures var annuity := Annuity(notional, schedule, dayCount, curve);
            var fair := SolveFair(foreignLegPvInDomestic,
                                  Pv(FloatingLeg(notional, 0.0, effective, maturity, schedule, dayCount, curve, true), curve),
                                  annuity);
            && (Abs(annuity) > AnnuityTolerance ==>
                  foreignLegPvInDomestic
                  - Pv(FloatingLeg(notional, fair, effective, maturity, schedule, dayCount, curve, true), curve) == 0.0)
            && (Abs(annuity) <= AnnuityTolerance ==> fair == 0.0)
  {
    var annuity := Annuity(notional, schedule, dayCount, curve);
    var pvFlat := Pv(FloatingLeg(notional, 0.0, effective, maturity, schedule, dayCount, curve, true), curve);
    var fair := SolveFair(foreignLegPvInDomestic, pvFlat, annuity);
    FloatingLegPvLinear(notional, fair, effective, maturity, schedule, dayCount, curve, true);
  }

  /** The float-float pricer's direct annuity: a loop over the schedule's
      periods accumulating notional * tau * DF(end). */
  method DirectAnnuity(notional: real, schedule: seq<Date>, dayCount: DayCount, curve: DiscountCurve) returns (annuity: real)
    ensures annuity == Annuity(notional, schedule, dayCount, curve)
  {
    annuity := 0.0;
    var i := 1;
    while i < |schedule|
      invariant 1 <= i && (|schedule| > 0 ==> i <= |schedule|)
      invariant |schedule| > 0 ==> annuity == Annuity(notional, schedule[..i], dayCount, curve)
      invariant |schedule| == 0 ==> annuity == 0.0
    {
      var tau := dayCount(schedule[i - 1], schedule[i]);
      assert schedule[..i + 1][..i] == schedule[..i];
      annuity := annuity + notional * tau * curve(schedule[i]);
      i := i + 1;
    }
    if |schedule| > 0 {
      assert schedule[..i] == schedule;
    }
  }

  /** The fair domestic fixed rate shared by the fixed-fixed and the
      fixed-floating pricer: the domestic fixed leg is repriced at rate zero,
      the annuity is read off the two valuations (failing at a zero rate),
      and the rate at which the domestic leg is worth the foreign leg's value
      in domestic currency is solved for. */
  method FairDomesticFixedRate(notional: real, rate: real, effective: Date, maturity: Date, schedule: seq<Date>,
                               dayCount: DayCount, curve: DiscountCurve, currency: string,
                               domesticLegPv: real, foreignLegPvInDomestic: real)
    returns (r: Result<real, PricingError>)
    requires domesticLegPv == Pv(FixedLeg(notional, rate, effective, maturity, schedule, dayCount, true), curve)
    ensures r.Failure? <==> rate == 0.0
    ensures r.Failure? ==> r.error == ZeroDomesticFixedRate
    ensures r.Success? && Abs(Annuity(notional, schedule, dayCount, curve)) > AnnuityTolerance ==>
              Pv(FixedLeg(notional, r.value, effective, maturity, schedule, dayCount, true), curve) == foreignLegPvInDomestic
    ensures r.Success? && Abs(Annuity(notional, schedule, dayCount, curve)) <= AnnuityTolerance ==> r.value == 0.0
  {
    var cashflowsAtZero := BuildFixedLeg(notional, 0.0, effective, maturity, schedule, dayCount, true);
    var detailAtZero := PvCashflows(cashflowsAtZero, curve, currency);
    if rate == 0.0 {
      return Failure(ZeroDomesticFixedRate);
    }
    var annuity := (domesticLegPv - detailAtZero.pvTotal) / rate;
    FixedRateAnnuity(notional, rate, effective, maturity, schedule, dayCount, curve);
    var fair := SolveFair(foreignLegPvInDomestic, detailAtZero.pvTotal, annuity);
    FixedRateRoundTrip(notional, effective, maturity, schedule, dayCount, curve, foreignLegPvInDomestic);
    return Success(fair);
  }

  /** The fair domestic basis spread of the float-float pricer: the
      domestic floating leg is repriced at spread zero, its annuity is read
      off the two valuations when the spread is not negligible and summed
      directly over the schedule otherwise, and the spread at which the
      domestic leg is worth the foreign leg's value in domestic currency is
      solved for. */
  method FairBasisSpread(notional: real, spread: real, effective: Date, maturity: Date, schedule: seq<Date>,
                         dayCount: DayCount, curve: DiscountCurve, currency: string,
                         domesticLegPv: real, foreignLegPvInDomestic: real)
    returns (fair: real)
    requires ForwardsDefined(schedule, dayCount, curve)
    requires domesticLegPv == Pv(FloatingLeg(notional, spread, effective, maturity, schedule, dayCount, curve, true), curve)
    ensures Abs(Annuity(notional, schedule, dayCount, curve)) > AnnuityTolerance ==>
              Pv(FloatingLeg(notional, fair, effective, maturity, schedule, dayCount, curve, true), curve) == foreignLegPvInDomestic
    ensures Abs(Annuity(notional, schedule, dayCount, curve)) <= AnnuityTolerance ==> fair == 0.0
  {
    var flatCashflows := BuildFloatingLeg(notional, 0.0, effective, maturity, schedule, dayCount, curve, true);
    var flatDetail := PvCashflows(flatCashflows, curve, currency);
    var annuity;
    if Abs(spread) > SpreadTolerance {
      annuity := (domesticLegPv - flatDetail.pvTotal) / spread;
      BasisAnnuitiesAgree(notional, spread, effective, maturity, schedule, dayCount, curve);
    } else {
      annuity := DirectAnnuity(notional, schedule, dayCount, curve);
    }
    fair := SolveFair(foreignLegPvInDomestic, flatDetail.pvTotal, annuity);
    BasisRoundTrip(notional, effective, maturity, schedule, dayCount, curve, foreignLegPvInDomestic);
  }

  /** The figures of a result agree with the two leg values and spot. */
  predicate Values(res: SwapResults, domesticLegPv: real, foreignLegPv: real, spotFx: real)
  {
    && res.domesticLegPv == domesticLegPv
    && res.foreignLegPv == foreignLegPv
    && res.spotFx == spotFx
    && res.foreignLegPvInDomestic == foreignLegPv * spotFx
    && res.npvDomestic == res.foreignLegPvInDomestic - domesticLegPv
    && res.npvForeign * spotFx == res.npvDomestic
  }

  /** Fixed-fixed swap: pay a domestic fixed rate, receive a foreign fixed
      rate, notionals exchanged on both legs. */
  method PriceFixedFixed(domesticNotional: real, foreignNotional: real,
                         domesticFixedRate: real, foreignFixedRate: real,
                         effective: Date, maturity: Date,
                         domesticSchedule: seq<Date>, foreignSchedule: seq<Date>,
                         domesticDayCount: DayCount, foreignDayCount: DayCount,
                         domesticCurve: DiscountCurve, foreignCurve: DiscountCurve,
                         spotFx: real, domesticCcy: string, foreignCcy: string)
    returns (r: Result<SwapResults, PricingError>)
    ensures r.Failure? <==> spotFx == 0.0 || domesticFixedRate == 0.0
    ensures r.Failure? ==> r.error == if spotFx == 0.0 then ZeroSpotFx else ZeroDomesticFixedRate
    ensures r.Success? ==>
      var domesticLeg := FixedLeg(domesticNotional, domesticFixedRate, effective, maturity, domesticSchedule, domesticDayCount, true);
      var foreignLeg := FixedLeg(foreignNotional, foreignFixedRate, effective, maturity, foreignSchedule, foreignDayCount, true);
      var res := r.value;
      && res.swapType == "Fixed-Fixed"
      && Values(res, Pv(domesticLeg, domesticCurve), Pv(foreignLeg, foreignCurve), spotFx)
      && res.fairValueDescription == "Fair " + domesticCcy + " fixed rate"
      && res.domesticCcy == domesticCcy && res.foreignCcy == foreignCcy
      && res.domesticNotional == domesticNotional && res.foreignNotional == foreignNotional
      && fresh(res.domesticLegDetail) && fresh(res.foreignLegDetail)
      && res.domesticLegDetail != res.foreignLegDetail
      && res.domesticLegDetail.currency == domesticCcy && res.foreignLegDetail.currency == foreignCcy
      && res.domesticLegDetail.Records(domesticLeg, domesticCurve)
      && res.foreignLegDetail.Records(foreignLeg, foreignCurve)
      && res.domesticLegDetail.pvTotal == res.domesticLegPv && res.foreignLegDetail.pvTotal == res.foreignLegPv
    ensures r.Success? ==>
      var annuity := Annuity(domesticNotional, domesticSchedule, domesticDayCount, domesticCurve);
      && (Abs(annuity) > AnnuityTolerance ==>
            r.value.foreignLegPvInDomestic
            - Pv(FixedLeg(domesticNotional, r.value.fairValue, effective, maturity, domesticSchedule, domesticDayCount, true),
                 domesticCurve) == 0.0)
      && (Abs(annuity) <= AnnuityTolerance ==> r.value.fairValue == 0.0)
  {
    var domesticCashflows := BuildFixedLeg(domesticNotional, domesticFixedRate, effective, maturity,
                                           domesticSchedule, domesticDayCount, true);
    var foreignCashflows := BuildFixedLeg(foreignNotional, foreignFixedRate, effective, maturity,
                                          foreignSchedule, foreignDayCount, true);
    var domesticDetail := PvCashflows(domesticCashflows, domesticCurve, domesticCcy);
    var foreignDetail := PvCashflows(foreignCashflows, foreignCurve, foreignCcy);
    var npv := LegNpv(domesticDetail.pvTotal, foreignDetail.pvTotal, spotFx);
    if npv.Failure? {
      return Failure(npv.error);
    }
    var fair := FairDomesticFixedRate(domesticNotional, domesticFixedRate, effective, maturity, domesticSchedule,
                                      domesticDayCount, domesticCurve, domesticCcy,
                                      domesticDetail.pvTotal, npv.value.foreignLegPvInDomestic);
    if fair.Failure? {
      return Failure(fair.error);
    }
    r := Success(SwapResults("Fixed-Fixed", npv.value.npvDomestic, npv.value.npvForeign,
                             "Fair " + domesticCcy + " fixed rate", fair.value,
                             domesticDetail.pvTotal, foreignDetail.pvTotal, npv.value.foreignLegPvInDomestic,
                             domesticCcy, foreignCcy, spotFx, domesticNotional, foreignNotional,
                             domesticDetail, foreignDetail));
  }

  /** Fixed-floating swap: pay a domestic fixed rate, receive the foreign
      floating rate plus a spread, forwards projected from the foreign
      discount curve, notionals exchanged on both legs. */
  method PriceFixedFloating(domesticNotional: real, foreignNotional: real,
                            domesticFixedRate: real, foreignFloatSpread: real,
                            effective: Date, maturity: Date,
                            domesticSchedule: seq<Date>, foreignSchedule: seq<Date>,
                            domesticDayCount: DayCount, foreignIndexDayCount: DayCount,
                            domesticCurve: DiscountCurve, foreignCurve: DiscountCurve,
                            spotFx: real, domesticCcy: string, foreignCcy: string)
    returns (r: Result<SwapResults, PricingError>)
    requires ForwardsDefined(foreignSchedule, foreignIndexDayCount, foreignCurve)
    ensures r.Failure? <==> spotFx == 0.0 || domesticFixedRate == 0.0
    ensures r.Failure? ==> r.error == if spotFx == 0.0 then ZeroSpotFx else ZeroDomesticFixedRate
    ensures r.Success? ==>
      var domesticLeg := FixedLeg(domesticNotional, domesticFixedRate, effective, maturity, domesticSchedule, domesticDayCount, true);
      var foreignLeg := FloatingLeg(foreignNotional, foreignFloatSpread, effective, maturity, foreignSchedule,
                                    foreignIndexDayCount, foreignCurve, true);
      var res := r.value;
      && res.swapType == "Fixed-Floating"
      && Values(res, Pv(domesticLeg, domesticCurve), Pv(foreignLeg, foreignCurve), spotFx)
      && res.fairValueDescription == "Fair " + domesticCcy + " fixed rate"
      && res.domesticCcy == domesticCcy && res.foreignCcy == foreignCcy
      && res.domesticNotional == domesticNotional && res.foreignNotional == foreignNotional
      && fresh(res.domesticLegDetail) && fresh(res.foreignLegDetail)
      && res.domesticLegDetail != res.foreignLegDetail
      && res.domesticLegDetail.currency == domesticCcy && res.foreignLegDetail.currency == foreignCcy
      && res.domesticLegDetail.Records(domesticLeg, domesticCurve)
      && res.foreignLegDetail.Records(foreignLeg, foreignCurve)
      && res.domesticLegDetail.pvTotal == res.domesticLegPv && res.foreignLegDetail.pvTotal == res.foreignLegPv
    ensures r.Success? ==>
      var annuity := Annuity(domesticNotional, domesticSchedule, domesticDayCount, domesticCurve);
      && (Abs(annuity) > AnnuityTolerance ==>
            r.value.foreignLegPvInDomestic
            - Pv(FixedLeg(domesticNotional, r.value.fairValue, effective, maturity, domesticSchedule, domesticDayCount, true),
                 domesticCurve) == 0.0)
      && (Abs(annuity) <= AnnuityTolerance ==> r.value.fairValue == 0.0)
  {
    var domesticCashflows := BuildFixedLeg(domesticNotional, domesticFixedRate, effective, maturity,
                                           domesticSchedule, domesticDayCount, true);
    var foreignCashflows := BuildFloatingLeg(foreignNotional, foreignFloatSpread, effective, maturity,
                                             foreignSchedule, foreignIndexDayCount, foreignCurve, true);
    var domesticDetail := PvCashflows(domesticCashflows, domesticCurve, domesticCcy);
    var foreignDetail := PvCashflows(foreignCashflows, foreignCurve, foreignCcy);
    var npv := LegNpv(domesticDetail.pvTotal, foreignDetail.pvTotal, spotFx);
    if npv.Failure? {
      return Failure(npv.error);
    }
    var fair := FairDomesticFixedRate(domesticNotional, domesticFixedRate, effective, maturity, domesticSchedule,
                                      domesticDayCount, domesticCurve, domesticCcy,
                                      domesticDetail.pvTotal, npv.value.foreignLegPvInDomestic);
    if fair.Failure? {
      return Failure(fair.error);
    }
    r := Success(SwapResults("Fixed-Floating", npv.value.npvDomestic, npv.value.npvForeign,
                             "Fair " + domesticCcy + " fixed rate", fair.value,
                             domesticDetail.pvTotal, foreignDetail.pvTotal, npv.value.foreignLegPvInDomestic,
                             domesticCcy, foreignCcy, spotFx, domesticNotional, foreignNotional,
                             domesticDetail, foreignDetail));
  }

  /** Floating-floating (basis) swap: pay the domestic floating rate plus a
      spread, receive the foreign floating rate plus a spread, each leg's
      forwards projected from its own discount curve. The fair domestic
      basis spread is solved with the domestic leg's annuity, read off the
      two leg valuations when the spread is not negligible and summed
      directly over the domestic schedule otherwise. */
  method PriceFloatFloat(domesticNotional: real, foreignNotional: real,
                         domesticFloatSpread: real, foreignFloatSpread: real,
                         effective: Date, maturity: Date,
                         domesticSchedule: seq<Date>, foreignSchedule: seq<Date>,
                         domesticIndexDayCount: DayCount, foreignIndexDayCount: DayCount,
                         domesticCurve: DiscountCurve, foreignCurve: DiscountCurve,
                         spotFx: real, domesticCcy: string, foreignCcy: string)
    returns (r: Result<SwapResults, PricingError>)
    requires ForwardsDefined(domesticSchedule, domesticIndexDayCount, domesticCurve)
    requires ForwardsDefined(foreignSchedule, foreignIndexDayCount, foreignCurve)
    ensures r.Failure? <==> spotFx == 0.0
    ensures r.Failure? ==> r.error == ZeroSpotFx
    ensures r.Success? ==>
      var domesticLeg := FloatingLeg(domesticNotional, domesticFloatSpread, effective, maturity, domesticSchedule,
                                     domesticIndexDayCount, domesticCurve, true);
      var foreignLeg := FloatingLeg(foreignNotional, foreignFloatSpread, effective, maturity, foreignSchedule,
                                    foreignIndexDayCount, foreignCurve, true);
      var res := r.value;
      && res.swapType == "Floating-Floating (Basis)"
      && Values(res, Pv(domesticLeg, domesticCurve), Pv(foreignLeg, foreignCurve), spotFx)
      && res.fairValueDescription == "Fair " + domesticCcy + " basis spread"
      && res.domesticCcy == domesticCcy && res.foreignCcy == foreignCcy
      && res.domesticNotional == domesticNotional && res.foreignNotional == foreignNotional
      && fresh(res.domesticLegDetail) && fresh(res.foreignLegDetail)
      && res.domesticLegDetail != res.foreignLegDetail
      && res.domesticLegDetail.currency == domesticCcy && res.foreignLegDetail.currency == foreignCcy
      && res.domesticLegDetail.Records(domesticLeg, domesticCurve)
      && res.foreignLegDetail.Records(foreignLeg, foreignCurve)
      && res.domesticLegDetail.pvTotal == res.domesticLegPv && res.foreignLegDetail.pvTotal == res.foreignLegPv
    ensures r.Success? ==>
      var annuity := Annuity(domesticNotional, domesticSchedule, domesticIndexDayCount, domesticCurve);
      && (Abs(annuity) > AnnuityTolerance ==>
            r.value.foreignLegPvInDomestic
            - Pv(FloatingLeg(domesticNotional, r.value.fairValue, effective, maturity, domesticSchedule,
                             domesticIndexDayCount, domesticCurve, true), domesticCurve) == 0.0)
      && (Abs(annuity) <= AnnuityTolerance ==> r.value.fairValue == 0.0)
  {
    var domesticCashflows := BuildFloatingLeg(domesticNotional, domesticFloatSpread, effective, maturity,
                                              domesticSchedule, domesticIndexDayCount, domesticCurve, true);
    var foreignCashflows := BuildFloatingLeg(foreignNotional, foreignFloatSpread, effective, maturity,
                                             foreignSchedule, foreignIndexDayCount, foreignCurve, true);
    var domesticDetail := PvCashflows(domesticCashflows, domesticCurve, domesticCcy);
    var foreignDetail := PvCashflows(foreignCashflows, foreignCurve, foreignCcy);
    var npv := LegNpv(domesticDetail.pvTotal, foreignDetail.pvTotal, spotFx);
    if npv.Failure? {
      return Failure(npv.error);
    }
    var fair := FairBasisSpread(domesticNotional, domesticFloatSpread, effective, maturity, domesticSchedule,
                                domesticIndexDayCount, domesticCurve, domesticCcy,
                                domesticDetail.pvTotal, npv.value.foreignLegPvInDomestic);
    r := Success(SwapResults("Floating-Floating (Basis)", npv.value.npvDomestic, npv.value.npvForeign,
                             "Fair " + domesticCcy + " basis spread", fair,
                             domesticDetail.pvTotal, foreignDetail.pvTotal, npv.value.foreignLegPvInDomestic,
                             domesticCcy, foreignCcy, spotFx, domesticNotional, foreignNotional,
                             domesticDetail, foreignDetail));
  }
}
