/**
 * The interest engine: the Bank of Thailand rate-policy table, the
 * one-period interest formulas and the annuity payment formula.
 *
 * The simulators are in module Schedules and the comparator in module
 * Comparator; together the three modules model `InterestEngine`.
 */
module Interest {
  import opened Results
  import opened Money
  import opened Calendar

  // ---------------------------------------------------------------------
  // Rate-policy table

  datatype InterestMethod = ReducingBalance | DailyAccrualMethod | FlatRate

  /** The revolving-credit minimum payment: a percentage of the balance with a floor in baht. */
  datatype MinPaymentRule = MinPaymentRule(percent: real, floor: real)

  datatype RateConfig = RateConfig(maxRate: real, minPayment: Option<MinPaymentRule>, computation: InterestMethod)

  /** `BOT_RATES`: ceilings and minimum-payment rule per debt type. */
  const BotRates: map<string, RateConfig> := map[
    "credit_card" := RateConfig(16.0, Some(MinPaymentRule(8.0, 200.0)), DailyAccrualMethod),
    "personal_loan" := RateConfig(25.0, None, ReducingBalance),
    "personal_loan_vehicle" := RateConfig(24.0, None, ReducingBalance),
    "fixed_rate" := RateConfig(25.0, None, FlatRate)
  ]

  /** `getBOTConfig`: the entry for `debtType`, or the personal-loan entry for an unknown type. */
  function GetBotConfig(debtType: string): (c: RateConfig)
    ensures debtType in BotRates ==> c == BotRates[debtType]
    ensures debtType !in BotRates ==> c == BotRates["personal_loan"]
  {
    if debtType in BotRates then BotRates[debtType] else BotRates["personal_loan"]
  }

  /** Whatever the type, the configuration used is one of the table's entries. */
  lemma BotConfigFromTable(debtType: string)
    ensures GetBotConfig(debtType) in BotRates.Values
  {
    var key := if debtType in BotRates then debtType else "personal_loan";
    assert key in BotRates && BotRates[key] == GetBotConfig(debtType);
  }

  /** Only credit cards carry a minimum-payment rule, and every ceiling lies between 16% and 25%. */
  lemma BotRatesShape(debtType: string)
    ensures GetBotConfig(debtType).minPayment.Some? <==> debtType == "credit_card"
    ensures 16.0 <= GetBotConfig(debtType).maxRate <= 25.0
    ensures GetBotConfig(debtType).computation == DailyAccrualMethod <==> debtType == "credit_card"
  {
  }

  /** The structured part of `validateRate`'s answer (the message text is presentation). */
  datatype RateCheck = RateCheck(isOverLimit: bool, maxRate: real, currentRate: real)

  function ValidateRate(rate: real, debtType: string): (v: RateCheck)
    ensures v.maxRate == GetBotConfig(debtType).maxRate && v.currentRate == rate
    ensures v.isOverLimit <==> rate > v.maxRate
  {
    var config := GetBotConfig(debtType);
    RateCheck(rate > config.maxRate, config.maxRate, rate)
  }

  /** A credit-card rate of exactly 16% is within the ceiling; 16.01% is over it. */
  lemma CreditCardCeilingBoundary()
    ensures !ValidateRate(16.0, "credit_card").isOverLimit
    ensures ValidateRate(16.01, "credit_card").isOverLimit
  {
  }

  // ---------------------------------------------------------------------
  // Minimum payment and one-period interest

  /**
   * `calculateMinPayment`: zero for a type without a (non-zero) percentage;
   * the whole balance when it is at most the floor; otherwise the larger of
   * the percentage of the balance and the floor.
   */
  function CalculateMinPayment(balance: real, debtType: string): (m: real)
    ensures GetBotConfig(debtType).minPayment.None? ==> m == 0.0
    ensures GetBotConfig(debtType).minPayment.Some? && balance >= 0.0 ==> 0.0 <= m <= balance
    ensures GetBotConfig(debtType).minPayment.Some? && balance > 200.0 ==>
              m >= 200.0 && m >= balance * 0.08 && (m == 200.0 || m == balance * 0.08)
    ensures GetBotConfig(debtType).minPayment.Some? && balance <= 200.0 ==> m == balance
  {
    var config := GetBotConfig(debtType);
    match config.minPayment
    case None => 0.0
    case Some(rule) =>
      if rule.percent == 0.0 then 0.0
      else
        var calculated := balance * (rule.percent / 100.0);
        if balance <= rule.floor then balance else Max(calculated, rule.floor)
  }

  /** Minimum payments of 150 and of 10000 baht on a credit card. */
  lemma MinPaymentExamples()
    ensures CalculateMinPayment(150.0, "credit_card") == 150.0
    ensures CalculateMinPayment(10000.0, "credit_card") == 800.0
    ensures CalculateMinPayment(1000.0, "personal_loan") == 0.0
  {
  }

  /** `reducingBalanceMonthly`: one twelfth of a year's interest on the balance. */
  function ReducingBalanceMonthly(balance: real, annualRatePercent: real): (i: real)
    ensures 12.0 * i == balance * annualRatePercent / 100.0
  {
    balance * MonthlyRate(annualRatePercent)
  }

  /** `dailyInterest`: one 365th of a year's interest on the balance. */
  function DailyInterest(balance: real, annualRatePercent: real): (i: real)
    ensures 365.0 * i == balance * annualRatePercent / 100.0
  {
    balance * (annualRatePercent / 100.0 / 365.0)
  }

  /** `dailyAccrual`: the daily interest for `days` days. */
  function DailyAccrual(balance: real, annualRatePercent: real, days: int): (i: real)
    ensures 365.0 * i == balance * annualRatePercent / 100.0 * days as real
  {
    DailyInterest(balance, annualRatePercent) * days as real
  }

  /** The flat-rate interest: a twelfth of a year's interest on the original principal. */
  function FlatMonthlyInterest(principal: real, annualRatePercent: real): (i: real)
    ensures 12.0 * i == principal * annualRatePercent / 100.0
  {
    principal * (annualRatePercent / 100.0) / 12.0
  }

  lemma FormulaExamples()
    ensures ReducingBalanceMonthly(120000.0, 24.0) == 2400.0
    ensures DailyAccrual(50000.0, 16.0, 30) == DailyInterest(50000.0, 16.0) * 30.0
    ensures DailyInterest(50000.0, 16.0) == 50000.0 * 0.16 / 365.0
  {
  }

  /** Accruing over two spans of days one after the other equals accruing over both at once. */
  lemma DailyAccrualAdditive(balance: real, annualRatePercent: real, d1: int, d2: int)
    ensures DailyAccrual(balance, annualRatePercent, d1 + d2)
         == DailyAccrual(balance, annualRatePercent, d1) + DailyAccrual(balance, annualRatePercent, d2)
  {
    var k := DailyInterest(balance, annualRatePercent);
    assert k * (d1 + d2) as real == k * d1 as real + k * d2 as real;
  }

  /** A year of daily accrual and twelve months of reducing-balance interest are the same amount. */
  lemma YearOfInterest(balance: real, annualRatePercent: real)
    ensures DailyAccrual(balance, annualRatePercent, 365) == 12.0 * ReducingBalanceMonthly(balance, annualRatePercent)
  {
  }

  /** Interest on a non-negative balance at a non-negative rate is non-negative and grows with the balance. */
  lemma DailyAccrualMonotone(b1: real, b2: real, annualRatePercent: real, days: int)
    requires 0.0 <= b1 <= b2 && annualRatePercent >= 0.0 && days >= 0
    ensures 0.0 <= DailyAccrual(b1, annualRatePercent, days) <= DailyAccrual(b2, annualRatePercent, days)
  {
    var k := annualRatePercent / 100.0 / 365.0 * days as real;
    assert k >= 0.0;
    assert DailyAccrual(b1, annualRatePercent, days) == b1 * k;
    assert DailyAccrual(b2, annualRatePercent, days) == b2 * k;
    assert b1 * k <= b2 * k;
  }

  // ---------------------------------------------------------------------
  // Annuity payment

  /** `Math.pow(x, n)` for a whole exponent. */
  function Pow(x: real, n: nat): real {
    if n == 0 then 1.0 else x * Pow(x, n - 1)
  }

  lemma {:induction false} PowAboveOne(x: real, n: nat)
    requires x > 1.0 && n > 0
    ensures Pow(x, n) > 1.0
  {
    if n > 1 {
      PowAboveOne(x, n - 1);
      assert x * Pow(x, n - 1) > 1.0 * Pow(x, n - 1);
    }
  }

  /** The monthly rate `annualRatePercent / 100 / 12` as a fraction. */
  function MonthlyRate(annualRatePercent: real): real {
    annualRatePercent / 100.0 / 12.0
  }

  /** One plus the monthly rate: the factor by which a month of interest grows a balance. */
  function GrowthFactor(annualRatePercent: real): real {
    1.0 + MonthlyRate(annualRatePercent)
  }

  /**
   * `calculateMonthlyPayment`: the level payment of a reducing-balance loan
   * of `termMonths` months, and `principal / termMonths` at a zero rate.
   * The source divides by `termMonths` and by `(1 + r)^n - 1`, so the term
   * must be positive; a negative rate is invalid input.
   */
  function CalculateMonthlyPayment(principal: real, annualRatePercent: real, termMonths: nat): (pmt: real)
    requires termMonths > 0 && annualRatePercent >= 0.0
    ensures principal >= 0.0 ==> pmt >= 0.0
  {
    if MonthlyRate(annualRatePercent) == 0.0 then principal / termMonths as real
    else
      PowAboveOne(GrowthFactor(annualRatePercent), termMonths);
      AnnuityQuotient(principal, MonthlyRate(annualRatePercent), Pow(GrowthFactor(annualRatePercent), termMonths))
  }

  /** `p * (r * q) / (q - 1)`, the annuity formula with `q = (1 + r)^n`. */
  function AnnuityQuotient(principal: real, r: real, q: real): (pmt: real)
    requires q > 1.0
    ensures pmt * (q - 1.0) == principal * (r * q)
    ensures principal >= 0.0 && r >= 0.0 ==> pmt >= 0.0
  {
    QuotientNonNegative(principal * (r * q), q - 1.0);
    principal * (r * q) / (q - 1.0)
  }

  lemma QuotientNonNegative(x: real, d: real)
    requires d > 0.0
    ensures x >= 0.0 ==> x / d >= 0.0
  {
  }

  lemma CancelFactor(a: real, b: real, r: real)
    requires r != 0.0 && a * r == b * r
    ensures a == b
  {
  }

  /**
   * The balance after `k` months in which the balance grows by the factor
   * `q` and then `payment` is paid, with no clamping.  With `q` the growth
   * factor of a rate, a month is one month of reducing-balance interest
   * (lemma MonthGrowth).
   */
  function Compounded(balance: real, q: real, payment: real, k: nat): real {
    if k == 0 then balance else Compounded(balance, q, payment, k - 1) * q - payment
  }

  lemma MonthGrowth(b: real, annualRatePercent: real)
    ensures b + ReducingBalanceMonthly(b, annualRatePercent) == b * GrowthFactor(annualRatePercent)
  {
  }

  /** 1 + q + ... + q^(k-1). */
  function GeometricSum(q: real, k: nat): real {
    if k == 0 then 0.0 else GeometricSum(q, k - 1) * q + 1.0
  }

  lemma {:induction false} GeometricSumClosed(q: real, k: nat)
    ensures GeometricSum(q, k) * (q - 1.0) == Pow(q, k) - 1.0
  {
    if k > 0 {
      GeometricSumClosed(q, k - 1);
      GeometricStep(GeometricSum(q, k - 1), q, Pow(q, k - 1));
    }
  }

  /** One more term of the geometric sum, on plain reals: `g (q - 1) = p - 1` gives `(g q + 1)(q - 1) = q p - 1`. */
  lemma GeometricStep(g: real, q: real, p: real)
    requires g * (q - 1.0) == p - 1.0
    ensures (g * q + 1.0) * (q - 1.0) == q * p - 1.0
  {
    assert (g * q + 1.0) * (q - 1.0) == (g * (q - 1.0)) * q + q - 1.0;
  }

  lemma {:induction false} CompoundedClosed(balance: real, q: real, payment: real, k: nat)
    ensures Compounded(balance, q, payment, k) == balance * Pow(q, k) - payment * GeometricSum(q, k)
  {
    if k > 0 {
      CompoundedClosed(balance, q, payment, k - 1);
      var p, g := Pow(q, k - 1), GeometricSum(q, k - 1);
      ClosedStep(balance, payment, q, p, g, Compounded(balance, q, payment, k - 1));
    }
  }

  lemma ClosedStep(balance: real, payment: real, q: real, p: real, g: real, b: real)
    requires b == balance * p - payment * g
    ensures b * q - payment == balance * (q * p) - payment * (g * q + 1.0)
  {
  }

  /** Paying the annuity payment every month clears the loan exactly at the end of the term. */
  lemma MonthlyPaymentRepaysLoan(principal: real, annualRatePercent: real, termMonths: nat)
    requires termMonths > 0 && annualRatePercent >= 0.0
    ensures Compounded(principal, GrowthFactor(annualRatePercent),
                       CalculateMonthlyPayment(principal, annualRatePercent, termMonths), termMonths) == 0.0
  {
    var pmt := CalculateMonthlyPayment(principal, annualRatePercent, termMonths);
    CompoundedClosed(principal, GrowthFactor(annualRatePercent), pmt, termMonths);
    if MonthlyRate(annualRatePercent) == 0.0 {
      ZeroRateRepays(principal, annualRatePercent, termMonths);
    } else {
      PositiveRateRepays(principal, annualRatePercent, termMonths);
    }
  }

  /** Without interest the payment is the principal split evenly over the term. */
  lemma ZeroRateRepays(principal: real, annualRatePercent: real, termMonths: nat)
    requires termMonths > 0 && annualRatePercent >= 0.0 && MonthlyRate(annualRatePercent) == 0.0
    ensures var q := GrowthFactor(annualRatePercent);
      principal * Pow(q, termMonths)
        - CalculateMonthlyPayment(principal, annualRatePercent, termMonths) * GeometricSum(q, termMonths) == 0.0
  {
    assert GrowthFactor(annualRatePercent) == 1.0;
    PowOne(termMonths);
    GeometricSumOne(termMonths);
    EvenSplit(principal, termMonths as real);
  }

  lemma EvenSplit(principal: real, n: real)
    requires n > 0.0
    ensures principal * 1.0 - principal / n * n == 0.0
  {
  }

  /** With interest the annuity payment cancels the compounded principal. */
  lemma PositiveRateRepays(principal: real, annualRatePercent: real, termMonths: nat)
    requires termMonths > 0 && annualRatePercent >= 0.0 && MonthlyRate(annualRatePercent) != 0.0
    ensures var q := GrowthFactor(annualRatePercent);
      principal * Pow(q, termMonths)
        - CalculateMonthlyPayment(principal, annualRatePercent, termMonths) * GeometricSum(q, termMonths) == 0.0
  {
    AnnuityCancels(principal, MonthlyRate(annualRatePercent), termMonths);
  }

  /** For any positive monthly rate `r`, the annuity payment cancels the principal grown by `(1 + r)^n`. */
  lemma AnnuityCancels(principal: real, r: real, n: nat)
    requires r > 0.0 && n > 0
    ensures Pow(1.0 + r, n) > 1.0
    ensures principal * Pow(1.0 + r, n) - AnnuityQuotient(principal, r, Pow(1.0 + r, n)) * GeometricSum(1.0 + r, n) == 0.0
  {
    PowAboveOne(1.0 + r, n);
    GeometricSumClosed(1.0 + r, n);
    var p := Pow(1.0 + r, n);
    AnnuityAlgebra(principal, AnnuityQuotient(principal, r, p), p, GeometricSum(1.0 + r, n), r);
  }

  lemma AnnuityAlgebra(principal: real, pmt: real, p: real, g: real, r: real)
    requires r != 0.0 && g * ((1.0 + r) - 1.0) == p - 1.0
    requires pmt * (p - 1.0) == principal * (r * p)
    ensures principal * p - pmt * g == 0.0
  {
    assert g * r == p - 1.0;
    assert (pmt * g) * r == pmt * (g * r);
    assert (pmt * g) * r == (principal * p) * r;
    CancelFactor(pmt * g, principal * p, r);
  }

  lemma {:induction false} PowOne(n: nat)
    ensures Pow(1.0, n) == 1.0
  {
    if n > 0 { PowOne(n - 1); }
  }

  lemma {:induction false} GeometricSumOne(n: nat)
    ensures GeometricSum(1.0, n) == n as real
  {
    if n > 0 { GeometricSumOne(n - 1); }
  }
}
