/**
  `DefaultExpandedSwapLegPricerFn`: values an expanded swap leg by pricing each of
  its payment periods and payment events against one pricing environment and
  adding the results. The component pricers are parameters; a failure of one of
  them (an exception it throws) is an `Err`. Amounts are `real`, not IEEE
  `double`.
 */
module SwapLegPricing {
  import opened Beans

  /** The market data a valuation reads; its internals are not part of this model. */
  type PricingEnvironment

  /** One payment period of a leg, of whatever concrete kind. */
  type PaymentPeriod

  /** One payment event of a leg, of whatever concrete kind. */
  type PaymentEvent

  /** Whatever a component pricer throws: an unsupported kind of component, missing market data, ... */
  type PricingFailure(==)

  /** How one component is valued against an environment: an amount, or the failure it throws. */
  type ValueFn<!X> = (PricingEnvironment, X) -> Result<real, PricingFailure>

  /** A pricer for payment periods: present value and future value. */
  datatype PeriodPricer = PeriodPricer(presentValue: ValueFn<PaymentPeriod>, futureValue: ValueFn<PaymentPeriod>)

  /** A pricer for payment events: present value and future value. */
  datatype EventPricer = EventPricer(presentValue: ValueFn<PaymentEvent>, futureValue: ValueFn<PaymentEvent>)

  /** A leg decomposed into its payment periods and payment events, each in order. */
  datatype ExpandedSwapLeg = ExpandedSwapLeg(paymentPeriods: seq<PaymentPeriod>, paymentEvents: seq<PaymentEvent>)

  /** The leg pricer: one period pricer and one event pricer, neither null. */
  datatype LegPricer = LegPricer(periodPricer: PeriodPricer, eventPricer: EventPricer)

  /** The constructor: each pricer is checked for null, the period pricer first. */
  function NewLegPricer(periodPricer: Nullable<PeriodPricer>, eventPricer: Nullable<EventPricer>)
    : (r: Result<LegPricer, Exception>)
    ensures r.Ok? <==> periodPricer.NonNull? && eventPricer.NonNull?
    ensures r.Ok? ==> r.value.periodPricer == periodPricer.get && r.value.eventPricer == eventPricer.get
    ensures periodPricer.Null? ==> r == Err(IllegalArgument("paymentPeriodPricerFn"))
    ensures periodPricer.NonNull? && eventPricer.Null? ==> r == Err(IllegalArgument("paymentEventPricerFn"))
  {
    var p :- NotNull(periodPricer, "paymentPeriodPricerFn");
    var e :- NotNull(eventPricer, "paymentEventPricerFn");
    Ok(LegPricer(p, e))
  }

  //---------------------------------------------------------------------------
  // Reference definitions

  /** Every component of `xs` can be valued. */
  ghost predicate AllPriced<X>(env: PricingEnvironment, xs: seq<X>, f: ValueFn<X>) {
    forall i | 0 <= i < |xs| :: f(env, xs[i]).Ok?
  }

  /** The total of the component values, added from the last component backwards. */
  ghost function PricedTotal<X>(env: PricingEnvironment, xs: seq<X>, f: ValueFn<X>): real
    requires AllPriced(env, xs, f)
    decreases |xs|
  {
    if |xs| == 0 then 0.0
    else PricedTotal(env, xs[..|xs| - 1], f) + f(env, xs[|xs| - 1]).value
  }

  /** `e` is what the first component of `xs` that cannot be valued fails with. */
  ghost predicate FirstFailure<X>(env: PricingEnvironment, xs: seq<X>, f: ValueFn<X>, e: PricingFailure) {
    exists i | 0 <= i < |xs| :: f(env, xs[i]) == Err(e) && AllPriced(env, xs[..i], f)
  }

  lemma {:induction false} PricedTotalFront<X>(env: PricingEnvironment, xs: seq<X>, f: ValueFn<X>)
    requires |xs| > 0 && AllPriced(env, xs, f)
    ensures PricedTotal(env, xs, f) == f(env, xs[0]).value + PricedTotal(env, xs[1..], f)
    decreases |xs|
  {
    if |xs| > 1 {
      var init := xs[..|xs| - 1];
      PricedTotalFront(env, init, f);
      assert init[1..] == xs[1..][..|xs[1..]| - 1];
    }
  }

  //---------------------------------------------------------------------------
  // The fold

  /**
    `stream().mapToDouble(...).sum()`: values the components in order and adds
    them up. The first component that fails aborts the whole sum with its
    failure; no partial sum is returned.
   */
  function Sum<X>(env: PricingEnvironment, xs: seq<X>, f: ValueFn<X>): (r: Result<real, PricingFailure>)
    ensures r.Ok? <==> AllPriced(env, xs, f)
    ensures r.Ok? ==> r.value == PricedTotal(env, xs, f)
    ensures r.Err? ==> FirstFailure(env, xs, f, r.error)
    decreases |xs|
  {
    if |xs| == 0 then Ok(0.0)
    else
      match f(env, xs[0])
      case Err(e) =>
        assert AllPriced(env, xs[..0], f);
        Err(e)
      case Ok(v) =>
        var rest := Sum(env, xs[1..], f);
        if rest.Err? then
          ghost var i :| 0 <= i < |xs[1..]| && f(env, xs[1..][i]) == Err(rest.error) && AllPriced(env, xs[1..][..i], f);
          assert xs[1..][i] == xs[i + 1];
          ghost var prefix := xs[..i + 1];
          assert AllPriced(env, prefix, f) by {
            forall j | 0 <= j < |prefix|
              ensures f(env, prefix[j]).Ok?
            {
              if j > 0 {
                assert prefix[j] == xs[1..][..i][j - 1];
              }
            }
          }
          rest
        else
          PricedTotalFront(env, xs, f);
          Ok(v + rest.value)
  }

  /**
    The private `value` method: the period sum plus the event sum, every
    component valued against the same environment. Periods are valued first, so
    a failing period is reported before any event failure.
   */
  function Value(env: PricingEnvironment, leg: ExpandedSwapLeg, periodFn: ValueFn<PaymentPeriod>, eventFn: ValueFn<PaymentEvent>)
    : (r: Result<real, PricingFailure>)
    ensures r.Ok? <==> AllPriced(env, leg.paymentPeriods, periodFn) && AllPriced(env, leg.paymentEvents, eventFn)
    ensures r.Ok? ==> r.value == PricedTotal(env, leg.paymentPeriods, periodFn) + PricedTotal(env, leg.paymentEvents, eventFn)
    ensures !AllPriced(env, leg.paymentPeriods, periodFn) ==> r.Err? && FirstFailure(env, leg.paymentPeriods, periodFn, r.error)
    ensures AllPriced(env, leg.paymentPeriods, periodFn) && r.Err? ==> FirstFailure(env, leg.paymentEvents, eventFn, r.error)
  {
    var valuePeriods :- Sum(env, leg.paymentPeriods, periodFn);
    var valueEvents :- Sum(env, leg.paymentEvents, eventFn);
    Ok(valuePeriods + valueEvents)
  }

  /** `presentValue`: the fold with the present-value functions of both component pricers. */
  function PresentValue(pricer: LegPricer, env: PricingEnvironment, leg: ExpandedSwapLeg): (r: Result<real, PricingFailure>)
    ensures r.Ok? <==>
      && AllPriced(env, leg.paymentPeriods, pricer.periodPricer.presentValue)
      && AllPriced(env, leg.paymentEvents, pricer.eventPricer.presentValue)
    ensures r.Ok? ==>
      r.value == PricedTotal(env, leg.paymentPeriods, pricer.periodPricer.presentValue)
        + PricedTotal(env, leg.paymentEvents, pricer.eventPricer.presentValue)
  {
    Value(env, leg, pricer.periodPricer.presentValue, pricer.eventPricer.presentValue)
  }

  /** `futureValue`: the same fold with the future-value functions of both component pricers. */
  function FutureValue(pricer: LegPricer, env: PricingEnvironment, leg: ExpandedSwapLeg): (r: Result<real, PricingFailure>)
    ensures r.Ok? <==>
      && AllPriced(env, leg.paymentPeriods, pricer.periodPricer.futureValue)
      && AllPriced(env, leg.paymentEvents, pricer.eventPricer.futureValue)
    ensures r.Ok? ==>
      r.value == PricedTotal(env, leg.paymentPeriods, pricer.periodPricer.futureValue)
        + PricedTotal(env, leg.paymentEvents, pricer.eventPricer.futureValue)
  {
    Value(env, leg, pricer.periodPricer.futureValue, pricer.eventPricer.futureValue)
  }

  //---------------------------------------------------------------------------
  // Properties of the fold

  /** A leg with no periods and no events is worth exactly zero, present or future, in any environment. */
  lemma EmptyLegIsZero(pricer: LegPricer, env: PricingEnvironment)
    ensures PresentValue(pricer, env, ExpandedSwapLeg([], [])) == Ok(0.0)
    ensures FutureValue(pricer, env, ExpandedSwapLeg([], [])) == Ok(0.0)
  {
  }

  /** A missing half contributes nothing: a leg without events is worth its period sum, and vice versa. */
  lemma MissingHalfContributesNothing(
    env: PricingEnvironment, periods: seq<PaymentPeriod>, events: seq<PaymentEvent>,
    periodFn: ValueFn<PaymentPeriod>, eventFn: ValueFn<PaymentEvent>)
    ensures Value(env, ExpandedSwapLeg(periods, []), periodFn, eventFn) == Sum(env, periods, periodFn)
    ensures Value(env, ExpandedSwapLeg([], events), periodFn, eventFn) == Sum(env, events, eventFn)
  {
  }

  /**
    Summing a concatenation: it succeeds exactly when both parts do, and then
    adds their sums; a failure of the first part wins over one of the second.
   */
  lemma {:induction false} SumConcat<X>(env: PricingEnvironment, a: seq<X>, b: seq<X>, f: ValueFn<X>)
    ensures Sum(env, a + b, f).Ok? <==> Sum(env, a, f).Ok? && Sum(env, b, f).Ok?
    ensures Sum(env, a + b, f).Ok? ==> Sum(env, a + b, f).value == Sum(env, a, f).value + Sum(env, b, f).value
    ensures Sum(env, a, f).Err? ==> Sum(env, a + b, f) == Sum(env, a, f)
    ensures Sum(env, a, f).Ok? && Sum(env, b, f).Err? ==> Sum(env, a + b, f) == Sum(env, b, f)
    decreases |a|
  {
    if |a| == 0 {
      assert a + b == b;
    } else {
      assert (a + b)[1..] == a[1..] + b;
      assert (a + b)[0] == a[0];
      SumConcat(env, a[1..], b, f);
    }
  }

  /** Joins two legs component-wise: periods after periods, events after events. */
  function Concat(l1: ExpandedSwapLeg, l2: ExpandedSwapLeg): ExpandedSwapLeg {
    ExpandedSwapLeg(l1.paymentPeriods + l2.paymentPeriods, l1.paymentEvents + l2.paymentEvents)
  }

  /** Leg valuation is additive: the joined leg is valued exactly when both legs are, at their sum. */
  lemma ValueIsAdditive(
    env: PricingEnvironment, l1: ExpandedSwapLeg, l2: ExpandedSwapLeg,
    periodFn: ValueFn<PaymentPeriod>, eventFn: ValueFn<PaymentEvent>)
    ensures Value(env, Concat(l1, l2), periodFn, eventFn).Ok? <==>
      Value(env, l1, periodFn, eventFn).Ok? && Value(env, l2, periodFn, eventFn).Ok?
    ensures Value(env, Concat(l1, l2), periodFn, eventFn).Ok? ==>
      Value(env, Concat(l1, l2), periodFn, eventFn).value
      == Value(env, l1, periodFn, eventFn).value + Value(env, l2, periodFn, eventFn).value
  {
    SumConcat(env, l1.paymentPeriods, l2.paymentPeriods, periodFn);
    SumConcat(env, l1.paymentEvents, l2.paymentEvents, eventFn);
  }

  /** The order of the periods, and of the events, does not change what a leg is worth. */
  lemma ValueIgnoresOrder(
    env: PricingEnvironment, p1: seq<PaymentPeriod>, p2: seq<PaymentPeriod>,
    e1: seq<PaymentEvent>, e2: seq<PaymentEvent>,
    periodFn: ValueFn<PaymentPeriod>, eventFn: ValueFn<PaymentEvent>)
    ensures Value(env, ExpandedSwapLeg(p1 + p2, e1 + e2), periodFn, eventFn).Ok?
      <==> Value(env, ExpandedSwapLeg(p2 + p1, e2 + e1), periodFn, eventFn).Ok?
    ensures Value(env, ExpandedSwapLeg(p1 + p2, e1 + e2), periodFn, eventFn).Ok? ==>
      Value(env, ExpandedSwapLeg(p1 + p2, e1 + e2), periodFn, eventFn).value
      == Value(env, ExpandedSwapLeg(p2 + p1, e2 + e1), periodFn, eventFn).value
  {
    SumConcat(env, p1, p2, periodFn);
    SumConcat(env, p2, p1, periodFn);
    SumConcat(env, e1, e2, eventFn);
    SumConcat(env, e2, e1, eventFn);
  }

  /** One failing component, period or event, fails the whole leg. */
  lemma OneFailureFailsTheLeg(
    env: PricingEnvironment, leg: ExpandedSwapLeg,
    periodFn: ValueFn<PaymentPeriod>, eventFn: ValueFn<PaymentEvent>)
    requires
      || (exists i | 0 <= i < |leg.paymentPeriods| :: periodFn(env, leg.paymentPeriods[i]).Err?)
      || (exists j | 0 <= j < |leg.paymentEvents| :: eventFn(env, leg.paymentEvents[j]).Err?)
    ensures Value(env, leg, periodFn, eventFn).Err?
  {
  }

  /**
    Only what the functions say about this leg's components in this environment
    matters: functions that agree there give the same valuation, failures
    included.
   */
  lemma {:induction false} SumDependsOnlyOnComponents<X>(env: PricingEnvironment, xs: seq<X>, f: ValueFn<X>, g: ValueFn<X>)
    requires forall i | 0 <= i < |xs| :: f(env, xs[i]) == g(env, xs[i])
    ensures Sum(env, xs, f) == Sum(env, xs, g)
    decreases |xs|
  {
    if |xs| > 0 {
      assert f(env, xs[0]) == g(env, xs[0]);
      assert forall i | 0 <= i < |xs[1..]| :: xs[1..][i] == xs[i + 1];
      SumDependsOnlyOnComponents(env, xs[1..], f, g);
    }
  }

  /**
    Present and future value run the same fold and differ only in the functions
    passed: where the two kinds of value coincide on the leg's components, so do
    the leg's present and future values.
   */
  lemma PresentAndFutureShareTheFold(pricer: LegPricer, env: PricingEnvironment, leg: ExpandedSwapLeg)
    requires forall i | 0 <= i < |leg.paymentPeriods| ::
      pricer.periodPricer.presentValue(env, leg.paymentPeriods[i]) == pricer.periodPricer.futureValue(env, leg.paymentPeriods[i])
    requires forall j | 0 <= j < |leg.paymentEvents| ::
      pricer.eventPricer.presentValue(env, leg.paymentEvents[j]) == pricer.eventPricer.futureValue(env, leg.paymentEvents[j])
    ensures PresentValue(pricer, env, leg) == FutureValue(pricer, env, leg)
  {
    SumDependsOnlyOnComponents(env, leg.paymentPeriods, pricer.periodPricer.presentValue, pricer.periodPricer.futureValue);
    SumDependsOnlyOnComponents(env, leg.paymentEvents, pricer.eventPricer.presentValue, pricer.eventPricer.futureValue);
  }

  /** Two periods worth 100 and 50 and one event worth -200 make a leg worth -50. */
  lemma ThreeComponentLeg(
    pricer: LegPricer, env: PricingEnvironment, p1: PaymentPeriod, p2: PaymentPeriod, e: PaymentEvent)
    requires pricer.periodPricer.presentValue(env, p1) == Ok(100.0)
    requires pricer.periodPricer.presentValue(env, p2) == Ok(50.0)
    requires pricer.eventPricer.presentValue(env, e) == Ok(-200.0)
    ensures PresentValue(pricer, env, ExpandedSwapLeg([p1, p2], [e])) == Ok(-50.0)
  {
    var periodFn, eventFn := pricer.periodPricer.presentValue, pricer.eventPricer.presentValue;
    assert [p1, p2][1..] == [p2] && [p2][1..] == [] && [e][1..] == [];
    assert Sum(env, [p2], periodFn) == Ok(50.0);
    assert Sum(env, [p1, p2], periodFn) == Ok(150.0);
    assert Sum(env, [e], eventFn) == Ok(-200.0);
  }
}
