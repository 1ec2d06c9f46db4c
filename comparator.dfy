/**
 * `InterestEngine.comparePayments`: run the simulator chosen by the debt
 * type once at the minimum payment and once at the minimum plus an extra
 * amount, and report what the extra amount saves.
 */
module Comparator {
  import opened Results
  import opened Money
  import opened Calendar
  import opened Interest
  import opened Schedules

  /** The cap every simulator runs with when `comparePayments` calls it. */
  const DefaultMaxMonths: nat := 600

  datatype Totals = Totals(totalMonths: nat, totalInterest: real, totalPaid: real)

  datatype Savings = Savings(months: int, interest: real, total: real)

  datatype Comparison = Comparison(minPayment: Totals, extraPayment: Totals, savings: Savings)

  /**
   * The simulator for a debt type: credit cards get the credit-card
   * simulator, types whose policy is daily accrual the daily-accrual one,
   * and every other type, `fixed_rate` included, the amortization one.
   */
  function GeneratorFor(debtType: string, annualRatePercent: real, payment: real): (g: Generator)
    ensures debtType == "credit_card" ==> g == CreditCard(annualRatePercent, Some(payment))
    ensures debtType != "credit_card" ==> g == Amortization(annualRatePercent, payment)
  {
    BotRatesShape(debtType);
    if debtType == "credit_card" then CreditCard(annualRatePercent, Some(payment))
    else if GetBotConfig(debtType).computation == DailyAccrualMethod then DailySchedule(annualRatePercent, payment)
    else Amortization(annualRatePercent, payment)
  }

  /** The cursor a simulator starts from: the start date's month for the calendar simulators. */
  function CursorFor(g: Generator, startDate: Date): YearMonth
    requires 1 <= startDate.month <= 12
  {
    if Dated(g) then MonthOf(startDate) else Undated
  }

  /** The schedule the chosen simulator returns for one payment amount. */
  function Outcome(debtType: string, principal: real, annualRatePercent: real, payment: real, startDate: Date): ScheduleResult
    requires 1 <= startDate.month <= 12
  {
    var g := GeneratorFor(debtType, annualRatePercent, payment);
    Summarize(Simulate(g, Start(principal, CursorFor(g, startDate)), DefaultMaxMonths))
  }

  function TotalsOf(r: ScheduleResult): Totals {
    Totals(r.totalMonths, r.totalInterest, r.totalPaid)
  }

  /** The report: both runs' totals and their differences, money rounded to cents. */
  function Compare(minResult: ScheduleResult, extraResult: ScheduleResult): (c: Comparison)
    ensures c.minPayment == TotalsOf(minResult) && c.extraPayment == TotalsOf(extraResult)
    ensures c.savings.months + extraResult.totalMonths == minResult.totalMonths
    ensures IsCents(c.savings.interest) && IsCents(c.savings.total)
    ensures extraResult.totalInterest <= minResult.totalInterest ==> c.savings.interest >= 0.0
    ensures extraResult.totalPaid <= minResult.totalPaid ==> c.savings.total >= 0.0
  {
    RoundCentsNonNegative(minResult.totalInterest - extraResult.totalInterest);
    RoundCentsNonNegative(minResult.totalPaid - extraResult.totalPaid);
    Comparison(TotalsOf(minResult), TotalsOf(extraResult),
               Savings(minResult.totalMonths - extraResult.totalMonths,
                       RoundCents(minResult.totalInterest - extraResult.totalInterest),
                       RoundCents(minResult.totalPaid - extraResult.totalPaid)))
  }

  /**
   * `comparePayments`, with the start date passed in (the source defaults
   * it to today): the simulator chosen by `GeneratorFor` runs at
   * `minPayment` and at `minPayment + extraPayment`.
   */
  method ComparePayments(principal: real, annualRatePercent: real, minPayment: real, extraPayment: real,
                         debtType: string, startDate: Date)
    returns (c: Comparison)
    requires 1 <= startDate.month <= 12
    ensures c == Compare(Outcome(debtType, principal, annualRatePercent, minPayment, startDate),
                         Outcome(debtType, principal, annualRatePercent, minPayment + extraPayment, startDate))
  {
    var minResult := RunChosen(debtType, principal, annualRatePercent, minPayment, startDate);
    var extraResult := RunChosen(debtType, principal, annualRatePercent, minPayment + extraPayment, startDate);
    var savings := Savings(minResult.totalMonths - extraResult.totalMonths,
                           RoundCents(minResult.totalInterest - extraResult.totalInterest),
                           RoundCents(minResult.totalPaid - extraResult.totalPaid));
    c := Comparison(Totals(minResult.totalMonths, minResult.totalInterest, minResult.totalPaid),
                    Totals(extraResult.totalMonths, extraResult.totalInterest, extraResult.totalPaid),
                    savings);
    assert c == Compare(minResult, extraResult);
  }

  /** `genFn(p)`: the simulator the debt type selects, run at payment `p`. */
  method RunChosen(debtType: string, principal: real, annualRatePercent: real, payment: real, startDate: Date)
    returns (r: ScheduleResult)
    requires 1 <= startDate.month <= 12
    ensures r == Outcome(debtType, principal, annualRatePercent, payment, startDate)
  {
    if debtType == "credit_card" {
      r := GenerateCreditCardSchedule(principal, annualRatePercent, Some(payment), startDate, DefaultMaxMonths);
    } else if GetBotConfig(debtType).computation == DailyAccrualMethod {
      r := GenerateDailyAccrualSchedule(principal, annualRatePercent, payment, startDate, DefaultMaxMonths);
    } else {
      r := GenerateAmortizationSchedule(principal, annualRatePercent, payment, DefaultMaxMonths);
    }
  }

  // ---------------------------------------------------------------------
  // Paying more never costs more

  /**
   * `g2` pays at least what `g1` pays from any balance: the same simulator
   * at the same non-negative rate with a payment at least as large (for
   * credit cards, both on the minimum rule or both on a fixed amount).
   */
  predicate PaysAtLeast(g1: Generator, g2: Generator) {
    match (g1, g2)
    case (Amortization(rate1, p1), Amortization(rate2, p2)) => rate1 == rate2 >= 0.0 && p1 <= p2
    case (DailySchedule(rate1, p1), DailySchedule(rate2, p2)) => rate1 == rate2 >= 0.0 && p1 <= p2
    case (CreditCard(rate1, a1), CreditCard(rate2, a2)) =>
      && rate1 == rate2 >= 0.0
      && (UsesMinPayment(a1) <==> UsesMinPayment(a2))
      && (!UsesMinPayment(a1) ==> a1.value <= a2.value)
    case _ => false
  }

  /** What the minimum rule leaves owing grows with what is owed. */
  lemma MinimumRemainderMonotone(x1: real, x2: real)
    requires 0.0 <= x2 <= x1
    ensures 0.0 <= x2 - Min(CalculateMinPayment(x2, "credit_card"), x2)
                 <= x1 - Min(CalculateMinPayment(x1, "credit_card"), x1)
  {
    BotRatesShape("credit_card");
  }

  /** A period's interest from a smaller balance at the same rate is no larger, and never negative. */
  lemma InterestMonotone(g1: Generator, g2: Generator, b1: real, b2: real, cursor: YearMonth)
    requires ValidMonth(cursor) && PaysAtLeast(g1, g2) && 0.0 <= b2 <= b1
    ensures 0.0 <= PeriodInterest(g2, b2, cursor) <= PeriodInterest(g1, b1, cursor)
  {
    if g1.Amortization? {
      var m := MonthlyRate(g1.rate);
      assert m >= 0.0;
      assert b2 * m <= b1 * m;
    } else {
      DailyAccrualMonotone(b2, b1, g1.rate, DaysInMonth(cursor.year, cursor.month));
    }
  }

  /** Settling owes no more when less is owed and more is requested. */
  lemma SettleMonotone(b1: real, i1: real, r1: real, b2: real, i2: real, r2: real)
    requires b2 + i2 <= b1 + i1 && r1 <= r2
    ensures Settle(b2, i2, r2).balance <= Settle(b1, i1, r1).balance
  {
    var p1, p2 := Settle(b1, i1, r1), Settle(b2, i2, r2);
    assert p1.balance == Max(0.0, b1 + i1 - Min(r1, b1 + i1));
    assert p2.balance == Max(0.0, b2 + i2 - Min(r2, b2 + i2));
  }

  /** One period from a smaller balance with a larger payment ends no higher and charges no more interest. */
  lemma PeriodMonotone(g1: Generator, g2: Generator, b1: real, b2: real, cursor: YearMonth)
    requires ValidMonth(cursor) && PaysAtLeast(g1, g2) && 0.0 <= b2 <= b1
    ensures var p1 := PeriodOf(g1, State(b1, 0, cursor, 0.0, 0.0));
            var p2 := PeriodOf(g2, State(b2, 0, cursor, 0.0, 0.0));
      && 0.0 <= p2.interest <= p1.interest
      && p2.balance <= p1.balance
  {
    var i1 := PeriodInterest(g1, b1, cursor);
    var i2 := PeriodInterest(g2, b2, cursor);
    InterestMonotone(g1, g2, b1, b2, cursor);
    var r1 := RequestedPayment(g1, b1, i1);
    var r2 := RequestedPayment(g2, b2, i2);
    assert PeriodOf(g1, State(b1, 0, cursor, 0.0, 0.0)) == Settle(b1, i1, r1);
    assert PeriodOf(g2, State(b2, 0, cursor, 0.0, 0.0)) == Settle(b2, i2, r2);
    if g1.CreditCard? && UsesMinPayment(g1.paymentAmount) {
      MinimumRemainderMonotone(b1 + i1, b2 + i2);
      assert Settle(b1, i1, r1).balance == b1 + i1 - Min(r1, b1 + i1);
      assert Settle(b2, i2, r2).balance == b2 + i2 - Min(r2, b2 + i2);
    } else {
      SettleMonotone(b1, i1, r1, b2, i2, r2);
    }
  }

  /**
   * Over whole runs from the same month and cursor: the run that starts
   * lower and pays more finishes no later and accrues no more interest.
   */
  lemma {:induction false} RunMonotone(g1: Generator, g2: Generator, s1: State, s2: State, maxMonths: nat)
    requires PaysAtLeast(g1, g2) && ValidMonth(s1.cursor) && s1.month <= maxMonths
    requires s2.month == s1.month && s2.cursor == s1.cursor && 0.0 <= s2.balance <= s1.balance
    ensures var r1 := Simulate(g1, s1, maxMonths);
            var r2 := Simulate(g2, s2, maxMonths);
      && r2.months <= r1.months
      && r2.totalInterest - s2.totalInterest <= r1.totalInterest - s1.totalInterest
    decreases maxMonths - s1.month
  {
    var r1 := Simulate(g1, s1, maxMonths);
    if Continues(s2, maxMonths) {
      var t1 := Advance(g1, s1);
      var t2 := Advance(g2, s2);
      PeriodMonotone(g1, g2, s1.balance, s2.balance, s1.cursor);
      assert PeriodOf(g1, s1) == PeriodOf(g1, State(s1.balance, 0, s1.cursor, 0.0, 0.0));
      assert PeriodOf(g2, s2) == PeriodOf(g2, State(s2.balance, 0, s2.cursor, 0.0, 0.0));
      RunMonotone(g1, g2, t1, t2, maxMonths);
      assert r1.months == Simulate(g1, t1, maxMonths).months;
      assert r1.totalInterest == Simulate(g1, t1, maxMonths).totalInterest;
    } else {
      SimulateShape(g1, s1, maxMonths);
      InterestNonNegative(g1, s1, maxMonths);
    }
  }

  /** At a non-negative rate from a non-negative balance a run never accrues negative interest. */
  lemma {:induction false} InterestNonNegative(g: Generator, s: State, maxMonths: nat)
    requires PaysAtLeast(g, g) && ValidMonth(s.cursor) && s.month <= maxMonths && s.balance >= 0.0
    ensures Simulate(g, s, maxMonths).totalInterest >= s.totalInterest
    decreases maxMonths - s.month
  {
    if Continues(s, maxMonths) {
      PeriodMonotone(g, g, s.balance, s.balance, s.cursor);
      assert PeriodOf(g, s) == PeriodOf(g, State(s.balance, 0, s.cursor, 0.0, 0.0));
      InterestNonNegative(g, Advance(g, s), maxMonths);
    }
  }

  /**
   * Paying extra saves: with a non-negative rate, principal and extra
   * amount, the extra-payment run finishes no later and pays no more
   * interest, except for a credit card whose minimum is not positive but
   * whose minimum plus extra is (one run then follows the minimum rule and
   * the other a fixed amount; see `MixedCreditCardModes`).
   */
  lemma ExtraPaymentSaves(principal: real, annualRatePercent: real, minPayment: real, extraPayment: real,
                          debtType: string, startDate: Date)
    requires 1 <= startDate.month <= 12
    requires principal >= 0.0 && annualRatePercent >= 0.0 && extraPayment >= 0.0
    requires debtType == "credit_card" ==> minPayment > 0.0 || minPayment + extraPayment <= 0.0
    ensures var c := Compare(Outcome(debtType, principal, annualRatePercent, minPayment, startDate),
                             Outcome(debtType, principal, annualRatePercent, minPayment + extraPayment, startDate));
      c.savings.months >= 0 && c.savings.interest >= 0.0
  {
    var g1 := GeneratorFor(debtType, annualRatePercent, minPayment);
    var g2 := GeneratorFor(debtType, annualRatePercent, minPayment + extraPayment);
    var cursor := CursorFor(g1, startDate);
    assert CursorFor(g2, startDate) == cursor;
    var r1 := Simulate(g1, Start(principal, cursor), DefaultMaxMonths);
    var r2 := Simulate(g2, Start(principal, cursor), DefaultMaxMonths);
    RunMonotone(g1, g2, Start(principal, cursor), Start(principal, cursor), DefaultMaxMonths);
    RoundCentsMonotone(r2.totalInterest, r1.totalInterest);
  }

  /**
   * The excluded case really does go the other way: a 400 card balance at
   * 0% with a minimum of 0 and 199 extra clears in 2 months on the minimum
   * rule (200, then 200) but takes 3 at a fixed 199, so `savings.months`
   * is -1.
   */
  lemma MixedCreditCardModes()
    ensures Compare(Outcome("credit_card", 400.0, 0.0, 0.0, Date(2025, 1, 15)),
                    Outcome("credit_card", 400.0, 0.0, 199.0, Date(2025, 1, 15))).savings.months == -1
  {
    var c := MonthOf(Date(2025, 1, 15));
    MinimumRuleRun(c);
    FixedPaymentRun(c);
  }

  /** At 0% a card period charges nothing. */
  lemma InterestFreeCard(g: Generator, s: State)
    requires ValidMonth(s.cursor) && g.CreditCard? && g.rate == 0.0
    ensures PeriodInterest(g, s.balance, s.cursor) == 0.0
  {
    var i := PeriodInterest(g, s.balance, s.cursor);
    assert 365.0 * i == 0.0;
  }

  /** One interest-free card period from balance `b` paying `payment` (at most `b`). */
  lemma InterestFreeCardStep(g: Generator, s: State, payment: real)
    requires ValidMonth(s.cursor) && g.CreditCard? && g.rate == 0.0
    requires RequestedPayment(g, s.balance, 0.0) == payment && 0.0 <= payment <= s.balance
    ensures Advance(g, s).balance == s.balance - payment
    ensures Advance(g, s).cursor == NextMonth(s.cursor) && Advance(g, s).month == s.month + 1
  {
    InterestFreeCard(g, s);
  }

  /** A period that runs adds one month to the length of the rest of the simulation. */
  lemma RunsOneMore(g: Generator, s: State, maxMonths: nat)
    requires ValidMonth(s.cursor) && s.month <= maxMonths && Continues(s, maxMonths)
    ensures Simulate(g, s, maxMonths).months == Simulate(g, Advance(g, s), maxMonths).months
  {
    assert Simulate(g, s, maxMonths) == Prepend([EntryOf(g, s)], Simulate(g, Advance(g, s), maxMonths));
  }

  lemma MinimumRuleRun(c: YearMonth)
    requires ValidMonth(c)
    ensures Simulate(CreditCard(0.0, Some(0.0)), Start(400.0, c), DefaultMaxMonths).months == 2
  {
    var s0 := Start(400.0, c);
    BotRatesShape("credit_card");
    var g := CreditCard(0.0, Some(0.0));
    assert CalculateMinPayment(400.0, "credit_card") == 200.0;
    InterestFreeCardStep(g, s0, 200.0);
    var s1 := Advance(g, s0);
    assert CalculateMinPayment(200.0, "credit_card") == 200.0;
    InterestFreeCardStep(g, s1, 200.0);
    var s2 := Advance(g, s1);
    assert s2.balance == 0.0 && s2.month == 2;
    RunsOneMore(g, s1, DefaultMaxMonths);
    RunsOneMore(g, s0, DefaultMaxMonths);
  }

  lemma FixedPaymentRun(c: YearMonth)
    requires ValidMonth(c)
    ensures Simulate(CreditCard(0.0, Some(199.0)), Start(400.0, c), DefaultMaxMonths).months == 3
  {
    var s0 := Start(400.0, c);
    var g := CreditCard(0.0, Some(199.0));
    InterestFreeCardStep(g, s0, 199.0);
    var s1 := Advance(g, s0);
    InterestFreeCardStep(g, s1, 199.0);
    var s2 := Advance(g, s1);
    assert s2.balance == 2.0 && s2.month == 2;
    InterestFreeCard(g, s2);
    assert PeriodOf(g, s2).balance == 0.0;
    var s3 := Advance(g, s2);
    assert s3.balance == 0.0 && s3.month == 3;
    RunsOneMore(g, s2, DefaultMaxMonths);
    RunsOneMore(g, s1, DefaultMaxMonths);
    RunsOneMore(g, s0, DefaultMaxMonths);
  }

  /** `fixed_rate` debts are compared on the amortization simulator, not the flat-rate one. */
  lemma FixedRateComparedByAmortization(annualRatePercent: real, payment: real)
    ensures GeneratorFor("fixed_rate", annualRatePercent, payment) == Amortization(annualRatePercent, payment)
  {
  }
}
