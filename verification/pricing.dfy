/** DefaultPricingPolicy: the prepaid price of a booking and the late fee per day, by category.
    Amounts are exact reals; the three base rates are fixed when the policy is built. */
module Pricing {
  import opened Inventory

  datatype PricingPolicy = PricingPolicy(premium: real, suv: real, small: real)
  {
    predicate NonNegative() {
      premium >= 0.0 && suv >= 0.0 && small >= 0.0
    }
  }

  /** The rates the application is configured with unless overridden. */
  const DefaultRates := PricingPolicy(300.0, 150.0, 50.0)

  /** What the SUV loop adds for day d: full rate for days 1-7, 80% for days 8-30, 50% after. */
  function SuvDayRate(suv: real, d: int): real {
    if d <= 7 then suv else if d <= 30 then suv * 0.8 else suv * 0.5
  }

  /** The sum of the SUV day rates over days 1..days (nothing when days <= 0). */
  function SuvTotal(suv: real, days: int): real
    decreases days
  {
    if days <= 0 then 0.0 else SuvTotal(suv, days - 1) + SuvDayRate(suv, days)
  }

  /** The rate of the tier that day d (counted from 1) of a booking falls in. */
  function DayRate(p: PricingPolicy, t: CarType, d: int): real {
    match t
    case PREMIUM => p.premium
    case SUV => SuvDayRate(p.suv, d)
    case SMALL => if d <= 7 then p.small else p.small * 0.6
  }

  /** basePrice(type, days). The policy validates nothing: any int day count is priced. */
  function BasePrice(p: PricingPolicy, t: CarType, days: int): real {
    match t
    case PREMIUM => p.premium * days as real
    case SUV => SuvTotal(p.suv, days)
    case SMALL =>
      if days <= 7 then p.small * days as real
      else p.small * 7.0 + (p.small * 0.6) * (days - 7) as real
  }

  /** basePrice as the source computes it: the SUV price by a loop over the days. */
  method ComputeBasePrice(p: PricingPolicy, t: CarType, days: int) returns (price: real)
    ensures price == BasePrice(p, t, days)
  {
    match t
    case PREMIUM =>
      price := p.premium * days as real;
    case SUV =>
      var total := 0.0;
      var d := 1;
      while d <= days
        invariant 1 <= d <= (if days < 0 then 1 else days + 1)
        invariant total == SuvTotal(p.suv, d - 1)
      {
        if d <= 7 {
          total := total + p.suv;
        } else if d <= 30 {
          total := total + p.suv * 0.8;
        } else {
          total := total + p.suv * 0.5;
        }
        d := d + 1;
      }
      price := total;
    case SMALL =>
      if days <= 7 {
        price := p.small * days as real;
      } else {
        price := p.small * 7.0 + (p.small * 0.6) * (days - 7) as real;
      }
  }

  /** latePerDay(type): depends on the category and the three rates only. With non-negative
      rates a late day never costs less than any booked day of the same category. */
  function LatePerDay(p: PricingPolicy, t: CarType): (fee: real)
    ensures p.NonNegative() ==> forall d :: fee >= DayRate(p, t, d)
  {
    match t
    case PREMIUM => p.premium * 1.2
    case SUV => p.suv + 0.6 * p.small
    case SMALL => p.small * 1.3
  }

  /** A booking of no days costs nothing, whatever the category. */
  lemma BasePriceOfZeroDays(p: PricingPolicy, t: CarType)
    ensures BasePrice(p, t, 0) == 0.0
  {
  }

  /** Adding day n+1 to a booking adds exactly the rate of the tier day n+1 falls in. */
  lemma BasePriceStep(p: PricingPolicy, t: CarType, n: nat)
    ensures BasePrice(p, t, n + 1) - BasePrice(p, t, n) == DayRate(p, t, n + 1)
  {
    match t
    case PREMIUM =>
      assert p.premium * (n + 1) as real == p.premium * n as real + p.premium;
    case SUV =>
    case SMALL =>
      if n + 1 <= 7 {
        assert p.small * (n + 1) as real == p.small * n as real + p.small;
      } else if n == 7 {
      } else {
        assert (p.small * 0.6) * (n + 1 - 7) as real == (p.small * 0.6) * (n - 7) as real + p.small * 0.6;
      }
  }

  lemma Distribute(a: real, b: real, c: real)
    ensures a * b + a * c == a * (b + c)
  {
  }

  /** Days 1-7 of an SUV booking are all charged the full rate. */
  lemma {:induction false} SuvFirstWeek(suv: real, days: nat)
    requires days <= 7
    ensures SuvTotal(suv, days) == suv * days as real
  {
    if days > 0 {
      SuvFirstWeek(suv, days - 1);
      var x := (days - 1) as real;
      assert x + 1.0 == days as real;
      Distribute(suv, x, 1.0);
      assert SuvTotal(suv, days) == suv * x + suv;
    }
  }

  /** Days 8-30 of an SUV booking are charged 80% of the rate. */
  lemma {:induction false} SuvUpToDay30(suv: real, days: nat)
    requires 7 <= days <= 30
    ensures SuvTotal(suv, days) == suv * 7.0 + suv * 0.8 * (days - 7) as real
  {
    if days == 7 {
      SuvFirstWeek(suv, 7);
    } else {
      SuvUpToDay30(suv, days - 1);
      var x := (days - 8) as real;
      assert x + 1.0 == (days - 7) as real;
      Distribute(suv * 0.8, x, 1.0);
    }
  }

  /** Every day after day 30 of an SUV booking is charged half the rate. */
  lemma {:induction false} SuvAfterDay30(suv: real, days: nat)
    requires 30 <= days
    ensures SuvTotal(suv, days) == suv * 7.0 + suv * 0.8 * 23.0 + suv * 0.5 * (days - 30) as real
  {
    if days == 30 {
      SuvUpToDay30(suv, 30);
    } else {
      SuvAfterDay30(suv, days - 1);
      var x := (days - 31) as real;
      assert x + 1.0 == (days - 30) as real;
      Distribute(suv * 0.5, x, 1.0);
      assert SuvTotal(suv, days) == SuvTotal(suv, days - 1) + suv * 0.5;
    }
  }

  /** The SUV day-by-day sum in closed form, one formula per tier. */
  lemma SuvTotalClosedForm(suv: real, days: nat)
    ensures SuvTotal(suv, days) ==
      if days <= 7 then suv * days as real
      else if days <= 30 then suv * 7.0 + suv * 0.8 * (days - 7) as real
      else suv * 7.0 + suv * 0.8 * 23.0 + suv * 0.5 * (days - 30) as real
  {
    if days <= 7 {
      SuvFirstWeek(suv, days);
    } else if days <= 30 {
      SuvUpToDay30(suv, days);
    } else {
      SuvAfterDay30(suv, days);
    }
  }

  /** With non-negative rates a longer booking never costs less, in every category. */
  lemma {:induction false} BasePriceMonotone(p: PricingPolicy, t: CarType, n: int, m: int)
    requires p.NonNegative() && n <= m
    ensures BasePrice(p, t, n) <= BasePrice(p, t, m)
    decreases if n < 0 then 1 else 0, m - n
  {
    if m <= 0 {
      match t
      case PREMIUM =>
        assert p.premium * m as real - p.premium * n as real == p.premium * (m - n) as real;
      case SUV =>
      case SMALL =>
        assert p.small * m as real - p.small * n as real == p.small * (m - n) as real;
    } else if n < 0 {
      BasePriceMonotone(p, t, n, 0);
      BasePriceMonotone(p, t, 0, m);
    } else if n < m {
      BasePriceMonotone(p, t, n, m - 1);
      BasePriceStep(p, t, m - 1);
    }
  }

  /** The prices the tiers give at the default rates 300/150/50. */
  lemma DefaultRatesExamples()
    ensures BasePrice(DefaultRates, SUV, 10) == 1410.0
    ensures BasePrice(DefaultRates, SMALL, 9) == 410.0
    ensures BasePrice(DefaultRates, PREMIUM, 9) == 2700.0
    ensures LatePerDay(DefaultRates, PREMIUM) == 360.0
    ensures LatePerDay(DefaultRates, SUV) == 180.0
    ensures LatePerDay(DefaultRates, SMALL) == 65.0
  {
    SuvTotalClosedForm(150.0, 10);
  }
}
