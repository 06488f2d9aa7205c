/** Shared vocabulary of the cross-currency swap pricer: dates, the
    collaborators that the pricer consults (day counter, discount curve),
    cash flows and the failure-carrying result type. */
module Cashflows {

  /** A payment date, as a serial day number. */
  type Date = int

  /** A day-count convention: the year fraction between two dates. */
  type DayCount = (Date, Date) -> real

  /** A discount curve in one currency: the discount factor of a payment date. */
  type DiscountCurve = Date -> real

  /** One entry of a leg: an amount paid (negative) or received (positive) on a date. */
  datatype Cashflow = Cashflow(date: Date, amount: real)

  datatype Result<+T, +E> = Success(value: T) | Failure(error: E)

  function Abs(x: real): real
  {
    if x < 0.0 then -x else x
  }

  /** Number of coupon periods a schedule of dates delimits. */
  function PeriodCount(schedule: seq<Date>): nat
  {
    if |schedule| < 2 then 0 else |schedule| - 1
  }

  /** A schedule as generated for a leg: strictly increasing dates. */
  predicate Increasing(schedule: seq<Date>)
  {
    forall i, j :: 0 <= i < j < |schedule| ==> schedule[i] < schedule[j]
  }

  /** The period [start, end] has a non-zero year fraction and a non-zero
      discount factor at its end, so that its simple forward rate can be
      computed from the curve. */
  predicate PeriodDefined(start: Date, end: Date, dayCount: DayCount, curve: DiscountCurve)
  {
    dayCount(start, end) != 0.0 && curve(end) != 0.0
  }

  /** Every period of the schedule has a computable forward rate. */
  predicate ForwardsDefined(schedule: seq<Date>, dayCount: DayCount, curve: DiscountCurve)
  {
    forall i, j {:trigger PeriodDefined(schedule[i], schedule[j], dayCount, curve)} ::
      0 <= i < |schedule| - 1 && j == i + 1 ==> PeriodDefined(schedule[i], schedule[j], dayCount, curve)
  }

  /** The contract of a real day counter and a real curve: positive year
      fractions between increasing dates and positive discount factors.
      Together with an increasing schedule it gives ForwardsDefined. */
  lemma {:induction false} PositiveMarketDefinesForwards(schedule: seq<Date>, dayCount: DayCount, curve: DiscountCurve)
    requires Increasing(schedule)
    requires forall a, b :: a < b ==> dayCount(a, b) > 0.0
    requires forall d :: curve(d) > 0.0
    ensures ForwardsDefined(schedule, dayCount, curve)
  {
    forall i, j | 0 <= i < |schedule| - 1 && j == i + 1
      ensures PeriodDefined(schedule[i], schedule[j], dayCount, curve)
    {
      assert schedule[i] < schedule[j];
    }
  }
}
