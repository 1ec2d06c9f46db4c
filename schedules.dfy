/**
 * The four month-by-month payoff simulators of `InterestEngine`
 * (`generateAmortizationSchedule`, `generateFixedRateSchedule`,
 * `generateCreditCardSchedule`, `generateDailyAccrualSchedule`).
 *
 * They share one specification, `Simulate`, parameterised by a `Generator`
 * that says how a period's interest and requested payment are found; each
 * simulator is a loop proved to compute it, and the properties of the
 * schedules are lemmas about `Simulate`.
 */
module Schedules {
  import opened Results
  import opened Money
  import opened Calendar
  import opened Interest

  // ---------------------------------------------------------------------
  // One simulated period

  /** The figures of one period, at full precision. */
  datatype Period = Period(interest: real, payment: real, principal: real, balance: real)

  /**
   * The common step of all four simulators: the payment is the requested
   * amount clamped to what is owed, the principal part is what the payment
   * leaves after interest, and the new balance is clamped at zero.
   */
  function Settle(balance: real, interest: real, requested: real): (p: Period)
    ensures p.interest == interest
    ensures p.payment == Min(requested, balance + interest)
    ensures p.payment + 0.0 == p.interest + p.principal
    ensures p.balance >= 0.0
    // the clamp at zero never bites: the balance drops by exactly the principal part
    ensures p.balance == balance - p.principal
    ensures p.balance == 0.0 <==> requested >= balance + interest
    ensures balance > 0.0 && p.payment > interest ==> p.balance < balance
    ensures balance >= 0.0 ==> (p.balance <= balance <==> p.payment >= interest)
  {
    var payment := Min(requested, balance + interest);
    var principalPart := payment - interest;
    Period(interest, payment, principalPart, Max(0.0, balance - principalPart))
  }

  // ---------------------------------------------------------------------
  // Schedules

  /** How one simulator finds a period's interest and requested payment. */
  datatype Generator =
    | Amortization(rate: real, monthlyPayment: real)
    | FixedRate(rate: real, principal: real, monthlyPayment: real)
    | CreditCard(rate: real, paymentAmount: Option<real>)
    | DailySchedule(rate: real, monthlyPayment: real)

  /** A calendar billing cycle: the `YYYY-MM` label and its day count. */
  datatype Cycle = Cycle(date: YearMonth, daysInMonth: int)

  /**
   * One row of a schedule, every amount rounded to cents; `cycle` is present
   * for the calendar-based simulators and `minPayment` for credit cards.
   */
  datatype Entry = Entry(
    month: nat, cycle: Option<Cycle>,
    payment: real, interest: real, principal: real, balance: real,
    minPayment: Option<real>, totalInterest: real, totalPaid: real)

  datatype ScheduleResult = ScheduleResult(schedule: seq<Entry>, totalMonths: nat, totalInterest: real, totalPaid: real)

  /** The loop variables of a simulator. */
  datatype State = State(balance: real, month: nat, cursor: YearMonth, totalInterest: real, totalPaid: real)

  /** A finished simulation at full precision. */
  datatype Run = Run(entries: seq<Entry>, months: nat, totalInterest: real, totalPaid: real, balance: real)

  /** The cursor of the two simulators that do not follow the calendar; it is never read. */
  const Undated: YearMonth := YearMonth(1970, 1)

  function Start(principal: real, cursor: YearMonth): State {
    State(principal, 0, cursor, 0.0, 0.0)
  }

  /** `!paymentAmount || paymentAmount <= 0`: the credit-card simulator then pays the minimum. */
  predicate UsesMinPayment(paymentAmount: Option<real>) {
    paymentAmount.None? || paymentAmount.value <= 0.0
  }

  function PeriodInterest(g: Generator, balance: real, cursor: YearMonth): real
    requires ValidMonth(cursor)
  {
    match g
    case Amortization(rate, _) => ReducingBalanceMonthly(balance, rate)
    case FixedRate(rate, principal, _) => FlatMonthlyInterest(principal, rate)
    case CreditCard(rate, _) => DailyAccrual(balance, rate, DaysInMonth(cursor.year, cursor.month))
    case DailySchedule(rate, _) => DailyAccrual(balance, rate, DaysInMonth(cursor.year, cursor.month))
  }

  function RequestedPayment(g: Generator, balance: real, interest: real): real {
    match g
    case Amortization(_, monthlyPayment) => monthlyPayment
    case FixedRate(_, _, monthlyPayment) => monthlyPayment
    case CreditCard(_, paymentAmount) =>
      if UsesMinPayment(paymentAmount) then CalculateMinPayment(balance + interest, "credit_card")
      else paymentAmount.value
    case DailySchedule(_, monthlyPayment) => monthlyPayment
  }

  function PeriodOf(g: Generator, s: State): Period
    requires ValidMonth(s.cursor)
  {
    var interest := PeriodInterest(g, s.balance, s.cursor);
    Settle(s.balance, interest, RequestedPayment(g, s.balance, interest))
  }

  /** The two simulators that walk the calendar, advancing `currentDate` by a month per period. */
  predicate Dated(g: Generator) {
    g.CreditCard? || g.DailySchedule?
  }

  function Advance(g: Generator, s: State): (t: State)
    requires ValidMonth(s.cursor)
    ensures ValidMonth(t.cursor) && t.month == s.month + 1
  {
    var p := PeriodOf(g, s);
    State(p.balance, s.month + 1, if Dated(g) then NextMonth(s.cursor) else s.cursor,
          s.totalInterest + p.interest, s.totalPaid + p.payment)
  }

  function CycleOf(g: Generator, cursor: YearMonth): Option<Cycle>
    requires ValidMonth(cursor)
  {
    if Dated(g) then Some(Cycle(cursor, DaysInMonth(cursor.year, cursor.month))) else None
  }

  function EntryOf(g: Generator, s: State): Entry
    requires ValidMonth(s.cursor)
  {
    var p := PeriodOf(g, s);
    var t := Advance(g, s);
    Entry(t.month, CycleOf(g, s.cursor),
          RoundCents(p.payment), RoundCents(p.interest), RoundCents(p.principal), RoundCents(p.balance),
          if g.CreditCard? then Some(RoundCents(CalculateMinPayment(p.balance, "credit_card"))) else None,
          RoundCents(t.totalInterest), RoundCents(t.totalPaid))
  }

  /** `balance > 0.01 && month < maxMonths`: the loop condition of every simulator. */
  predicate Continues(s: State, maxMonths: nat) {
    s.balance > 0.01 && s.month < maxMonths
  }

  /** The month-by-month simulation from state `s` until the balance is paid or `maxMonths` is reached. */
  function Simulate(g: Generator, s: State, maxMonths: nat): (r: Run)
    requires ValidMonth(s.cursor) && s.month <= maxMonths
    ensures s.month <= r.months <= maxMonths
    ensures r.months < maxMonths ==> r.balance <= 0.01
    ensures r.months == s.month <==> !Continues(s, maxMonths)
    decreases maxMonths - s.month
  {
    if !Continues(s, maxMonths) then Run([], s.month, s.totalInterest, s.totalPaid, s.balance)
    else Prepend([EntryOf(g, s)], Simulate(g, Advance(g, s), maxMonths))
  }

  function Prepend(entries: seq<Entry>, r: Run): Run {
    r.(entries := entries + r.entries)
  }

  /** The returned object: the entries, the month count and the totals rounded to cents. */
  function Summarize(r: Run): ScheduleResult {
    ScheduleResult(r.entries, r.months, RoundCents(r.totalInterest), RoundCents(r.totalPaid))
  }

  lemma PrependAppend(entries: seq<Entry>, e: Entry, r: Run)
    ensures Prepend(entries + [e], r) == Prepend(entries, Prepend([e], r))
  {
    assert (entries + [e]) + r.entries == entries + ([e] + r.entries);
  }

  // ---------------------------------------------------------------------
  // The four simulators

  /** `generateAmortizationSchedule`: reducing-balance interest and a fixed monthly payment. */
  method GenerateAmortizationSchedule(principal: real, annualRatePercent: real, monthlyPayment: real, maxMonths: nat)
    returns (r: ScheduleResult)
    ensures r == Summarize(Simulate(Amortization(annualRatePercent, monthlyPayment), Start(principal, Undated), maxMonths))
  {
    ghost var g := Amortization(annualRatePercent, monthlyPayment);
    var schedule: seq<Entry> := [];
    var balance := principal;
    var month: nat := 0;
    var totalInterest := 0.0;
    var totalPaid := 0.0;
    while balance > 0.01 && month < maxMonths
      invariant month <= maxMonths
      invariant Simulate(g, Start(principal, Undated), maxMonths)
             == Prepend(schedule, Simulate(g, State(balance, month, Undated, totalInterest, totalPaid), maxMonths))
      decreases maxMonths - month
    {
      ghost var s := State(balance, month, Undated, totalInterest, totalPaid);
      month := month + 1;
      var interest := ReducingBalanceMonthly(balance, annualRatePercent);
      var payment := Min(monthlyPayment, balance + interest);
      var principalPart := payment - interest;
      balance := Max(0.0, balance - principalPart);
      assert PeriodOf(g, s) == Period(interest, payment, principalPart, balance);
      totalInterest := totalInterest + interest;
      totalPaid := totalPaid + payment;
      var entry := Entry(month, None,
        RoundCents(payment), RoundCents(interest), RoundCents(principalPart), RoundCents(balance),
        None, RoundCents(totalInterest), RoundCents(totalPaid));
      assert State(balance, month, Undated, totalInterest, totalPaid) == Advance(g, s);
      assert entry == EntryOf(g, s);
      PrependAppend(schedule, entry, Simulate(g, Advance(g, s), maxMonths));
      schedule := schedule + [entry];
    }
    r := ScheduleResult(schedule, month, RoundCents(totalInterest), RoundCents(totalPaid));
  }

  /** `generateFixedRateSchedule`: flat interest on the principal passed in, every month. */
  method GenerateFixedRateSchedule(principal: real, annualRatePercent: real, monthlyPayment: real, maxMonths: nat)
    returns (r: ScheduleResult)
    ensures r == Summarize(Simulate(FixedRate(annualRatePercent, principal, monthlyPayment), Start(principal, Undated), maxMonths))
  {
    ghost var g := FixedRate(annualRatePercent, principal, monthlyPayment);
    var schedule: seq<Entry> := [];
    var balance := principal;
    var month: nat := 0;
    var totalInterest := 0.0;
    var totalPaid := 0.0;
    var fixedMonthlyInterest := FlatMonthlyInterest(principal, annualRatePercent);
    while balance > 0.01 && month < maxMonths
      invariant month <= maxMonths
      invariant Simulate(g, Start(principal, Undated), maxMonths)
             == Prepend(schedule, Simulate(g, State(balance, month, Undated, totalInterest, totalPaid), maxMonths))
      decreases maxMonths - month
    {
      ghost var s := State(balance, month, Undated, totalInterest, totalPaid);
      month := month + 1;
      var interest := fixedMonthlyInterest;
      var payment := Min(monthlyPayment, balance + interest);
      var principalPart := payment - interest;
      balance := Max(0.0, balance - principalPart);
      assert PeriodOf(g, s) == Period(interest, payment, principalPart, balance);
      totalInterest := totalInterest + interest;
      totalPaid := totalPaid + payment;
      var entry := Entry(month, None,
        RoundCents(payment), RoundCents(interest), RoundCents(principalPart), RoundCents(balance),
        None, RoundCents(totalInterest), RoundCents(totalPaid));
      assert State(balance, month, Undated, totalInterest, totalPaid) == Advance(g, s);
      assert entry == EntryOf(g, s);
      PrependAppend(schedule, entry, Simulate(g, Advance(g, s), maxMonths));
      schedule := schedule + [entry];
    }
    r := ScheduleResult(schedule, month, RoundCents(totalInterest), RoundCents(totalPaid));
  }

  /**
   * `generateCreditCardSchedule`: daily interest over the actual days of
   * each calendar month, paying `paymentAmount`, or the minimum payment on
   * the balance plus that month's interest when it is missing or not positive.
   */
  method GenerateCreditCardSchedule(principal: real, annualRatePercent: real, paymentAmount: Option<real>,
                                    startDate: Date, maxMonths: nat)
    returns (r: ScheduleResult)
    requires 1 <= startDate.month <= 12
    ensures r == Summarize(Simulate(CreditCard(annualRatePercent, paymentAmount), Start(principal, MonthOf(startDate)), maxMonths))
  {
    ghost var g := CreditCard(annualRatePercent, paymentAmount);
    var schedule: seq<Entry> := [];
    var balance := principal;
    var month: nat := 0;
    var totalInterest := 0.0;
    var totalPaid := 0.0;
    var currentDate := MonthOf(startDate);
    var useMinPayment := paymentAmount.None? || paymentAmount.value <= 0.0;
    while balance > 0.01 && month < maxMonths
      invariant month <= maxMonths && ValidMonth(currentDate)
      invariant Simulate(g, Start(principal, MonthOf(startDate)), maxMonths)
             == Prepend(schedule, Simulate(g, State(balance, month, currentDate, totalInterest, totalPaid), maxMonths))
      decreases maxMonths - month
    {
      ghost var s := State(balance, month, currentDate, totalInterest, totalPaid);
      var entry;
      balance, month, currentDate, totalInterest, totalPaid, entry :=
        CardMonth(annualRatePercent, paymentAmount, useMinPayment, balance, month, currentDate, totalInterest, totalPaid);
      PrependAppend(schedule, entry, Simulate(g, Advance(g, s), maxMonths));
      schedule := schedule + [entry];
    }
    r := ScheduleResult(schedule, month, RoundCents(totalInterest), RoundCents(totalPaid));
  }

  /** One pass of the credit-card loop: the loop variables after the month, and the entry it pushes. */
  method CardMonth(annualRatePercent: real, paymentAmount: Option<real>, useMinPayment: bool,
                   balance: real, month: nat, currentDate: YearMonth, totalInterest: real, totalPaid: real)
    returns (balance': real, month': nat, currentDate': YearMonth, totalInterest': real, totalPaid': real, entry: Entry)
    requires ValidMonth(currentDate) && useMinPayment == UsesMinPayment(paymentAmount)
    ensures var g := CreditCard(annualRatePercent, paymentAmount);
      var s := State(balance, month, currentDate, totalInterest, totalPaid);
      State(balance', month', currentDate', totalInterest', totalPaid') == Advance(g, s) && entry == EntryOf(g, s)
  {
    ghost var g := CreditCard(annualRatePercent, paymentAmount);
    ghost var s := State(balance, month, currentDate, totalInterest, totalPaid);
    month' := month + 1;
    var year := currentDate.year;
    var mon := currentDate.month;
    var daysInMonth := DaysInMonth(year, mon);
    var monthInterest := DailyAccrual(balance, annualRatePercent, daysInMonth);
    var payment := CardPayment(balance + monthInterest, paymentAmount, useMinPayment);
    var principalPart := payment - monthInterest;
    balance' := Max(0.0, balance - principalPart);
    assert PeriodOf(g, s) == Period(monthInterest, payment, principalPart, balance');
    totalInterest' := totalInterest + monthInterest;
    totalPaid' := totalPaid + payment;
    entry := Entry(month', Some(Cycle(YearMonth(year, mon), daysInMonth)),
      RoundCents(payment), RoundCents(monthInterest), RoundCents(principalPart), RoundCents(balance'),
      Some(RoundCents(CalculateMinPayment(balance', "credit_card"))),
      RoundCents(totalInterest'), RoundCents(totalPaid'));
    currentDate' := NextMonth(currentDate);
  }

  /**
   * The payment of one credit-card period on what is owed (balance plus
   * the month's interest): the amount given, or the minimum payment on
   * what is owed when the amount is missing or not positive, never more
   * than what is owed.
   */
  method CardPayment(owed: real, paymentAmount: Option<real>, useMinPayment: bool) returns (payment: real)
    requires useMinPayment == UsesMinPayment(paymentAmount)
    ensures useMinPayment ==> payment == Min(CalculateMinPayment(owed, "credit_card"), owed)
    ensures !useMinPayment ==> payment == Min(paymentAmount.value, owed)
  {
    if useMinPayment {
      var minPay := CalculateMinPayment(owed, "credit_card");
      payment := Min(minPay, owed);
    } else {
      payment := Min(paymentAmount.value, owed);
    }
  }

  /** `generateDailyAccrualSchedule`: daily interest over the actual days of each calendar month. */
  method GenerateDailyAccrualSchedule(principal: real, annualRatePercent: real, monthlyPayment: real,
                                      startDate: Date, maxMonths: nat)
    returns (r: ScheduleResult)
    requires 1 <= startDate.month <= 12
    ensures r == Summarize(Simulate(DailySchedule(annualRatePercent, monthlyPayment), Start(principal, MonthOf(startDate)), maxMonths))
  {
    ghost var g := DailySchedule(annualRatePercent, monthlyPayment);
    var schedule: seq<Entry> := [];
    var balance := principal;
    var month: nat := 0;
    var totalInterest := 0.0;
    var totalPaid := 0.0;
    var currentDate := MonthOf(startDate);
    while balance > 0.01 && month < maxMonths
      invariant month <= maxMonths && ValidMonth(currentDate)
      invariant Simulate(g, Start(principal, MonthOf(startDate)), maxMonths)
             == Prepend(schedule, Simulate(g, State(balance, month, currentDate, totalInterest, totalPaid), maxMonths))
      decreases maxMonths - month
    {
      ghost var s := State(balance, month, currentDate, totalInterest, totalPaid);
      month := month + 1;
      var year := currentDate.year;
      var mon := currentDate.month;
      var daysInMonth := DaysInMonth(year, mon);
      var monthInterest := DailyAccrual(balance, annualRatePercent, daysInMonth);
      var payment := Min(monthlyPayment, balance + monthInterest);
      var principalPart := payment - monthInterest;
      balance := Max(0.0, balance - principalPart);
      assert PeriodOf(g, s) == Period(monthInterest, payment, principalPart, balance);
      totalInterest := totalInterest + monthInterest;
      totalPaid := totalPaid + payment;
      var entry := Entry(month, Some(Cycle(YearMonth(year, mon), daysInMonth)),
        RoundCents(payment), RoundCents(monthInterest), RoundCents(principalPart), RoundCents(balance),
        None, RoundCents(totalInterest), RoundCents(totalPaid));
      currentDate := NextMonth(currentDate);
      assert State(balance, month, currentDate, totalInterest, totalPaid) == Advance(g, s);
      assert entry == EntryOf(g, s);
      PrependAppend(schedule, entry, Simulate(g, Advance(g, s), maxMonths));
      schedule := schedule + [entry];
    }
    r := ScheduleResult(schedule, month, RoundCents(totalInterest), RoundCents(totalPaid));
  }

  // ---------------------------------------------------------------------
  // Properties of every schedule

  /**
   * A simulation runs at most `maxMonths` periods, numbers its entries
   * consecutively, and stops short of the cap only once the balance is
   * at most 0.01.
   */
  lemma {:induction false} SimulateShape(g: Generator, s: State, maxMonths: nat)
    requires ValidMonth(s.cursor) && s.month <= maxMonths
    ensures var r := Simulate(g, s, maxMonths);
      && s.month <= r.months <= maxMonths
      && |r.entries| == r.months - s.month
      && (forall i :: 0 <= i < |r.entries| ==> r.entries[i].month == s.month + i + 1)
      && (r.months < maxMonths ==> r.balance <= 0.01)
      && (r.months == s.month <==> !Continues(s, maxMonths))
    decreases maxMonths - s.month
  {
    if Continues(s, maxMonths) {
      SimulateShape(g, Advance(g, s), maxMonths);
    }
  }

  /**
   * Every entry has a non-negative balance, and its interest and principal
   * add up to its payment within one cent of rounding.
   */
  lemma {:induction false} SimulateEntries(g: Generator, s: State, maxMonths: nat)
    requires ValidMonth(s.cursor) && s.month <= maxMonths
    ensures var r := Simulate(g, s, maxMonths);
      forall e :: e in r.entries ==>
        && e.balance >= 0.0
        && -0.01 <= e.interest + e.principal - e.payment <= 0.01
    decreases maxMonths - s.month
  {
    if Continues(s, maxMonths) {
      SimulateEntries(g, Advance(g, s), maxMonths);
      var p := PeriodOf(g, s);
      RoundCentsNonNegative(p.balance);
      RoundedSplit(p.payment, p.interest);
    }
  }

  /**
   * Conservation over the whole schedule: everything paid is either
   * interest or repaid principal, so total paid minus total interest is
   * exactly the drop in the balance.
   */
  lemma {:induction false} SimulateConservation(g: Generator, s: State, maxMonths: nat)
    requires ValidMonth(s.cursor) && s.month <= maxMonths
    ensures var r := Simulate(g, s, maxMonths);
      r.totalPaid - r.totalInterest == s.totalPaid - s.totalInterest + s.balance - r.balance
    decreases maxMonths - s.month
  {
    if Continues(s, maxMonths) {
      SimulateConservation(g, Advance(g, s), maxMonths);
    }
  }

  /** The billing cycle `i` months after `c`: that month and its day count. */
  function CycleAt(c: YearMonth, i: int): Cycle
    requires ValidMonth(c)
  {
    var m := AddMonths(c, i);
    Cycle(m, DaysInMonth(m.year, m.month))
  }

  /** The calendar simulators label entry `i` with the `i`-th month after the start and its true day count. */
  lemma {:induction false} SimulateCycles(g: Generator, s: State, maxMonths: nat)
    requires ValidMonth(s.cursor) && s.month <= maxMonths && Dated(g)
    ensures var r := Simulate(g, s, maxMonths);
      forall i :: 0 <= i < |r.entries| ==> r.entries[i].cycle == Some(CycleAt(s.cursor, i))
    decreases maxMonths - s.month
  {
    if Continues(s, maxMonths) {
      var t := Advance(g, s);
      SimulateCycles(g, t, maxMonths);
      var rest := Simulate(g, t, maxMonths).entries;
      var entries := Simulate(g, s, maxMonths).entries;
      FirstEntry(g, s, maxMonths);
      forall i | 0 <= i < |entries|
        ensures entries[i].cycle == Some(CycleAt(s.cursor, i))
      {
        if i > 0 {
          assert entries[i] == rest[i - 1];
          CycleAfterAdvance(g, s, i);
        }
      }
    }
  }

  /** A simulation that runs a period starts with that period's entry, then goes on from the next state. */
  lemma FirstEntry(g: Generator, s: State, maxMonths: nat)
    requires ValidMonth(s.cursor) && s.month <= maxMonths && Continues(s, maxMonths) && Dated(g)
    ensures Simulate(g, s, maxMonths).entries == [EntryOf(g, s)] + Simulate(g, Advance(g, s), maxMonths).entries
    ensures EntryOf(g, s).cycle == Some(CycleAt(s.cursor, 0))
  {
    EntryCycle(g, s);
    AddMonthsZero(s.cursor);
  }

  /** Each entry carries the cycle of the cursor it was computed at. */
  lemma EntryCycle(g: Generator, s: State)
    requires ValidMonth(s.cursor)
    ensures EntryOf(g, s).cycle == CycleOf(g, s.cursor)
  {
  }

  /** After a period, the cycle `i - 1` months on is the cycle `i` months after the earlier cursor. */
  lemma CycleAfterAdvance(g: Generator, s: State, i: int)
    requires ValidMonth(s.cursor) && Dated(g)
    ensures CycleAt(Advance(g, s).cursor, i - 1) == CycleAt(s.cursor, i)
  {
    AddMonthsAfterNext(s.cursor, i);
  }

  /** The flat-rate schedule charges the same interest, on the principal passed in, in every period. */
  lemma {:induction false} FixedRateInterestConstant(g: Generator, s: State, maxMonths: nat)
    requires ValidMonth(s.cursor) && s.month <= maxMonths && g.FixedRate?
    ensures var r := Simulate(g, s, maxMonths);
      forall e :: e in r.entries ==> e.interest == RoundCents(FlatMonthlyInterest(g.principal, g.rate))
    decreases maxMonths - s.month
  {
    if Continues(s, maxMonths) {
      FixedRateInterestConstant(g, Advance(g, s), maxMonths);
    }
  }

  /** The entries of a finished simulation end at its final balance, rounded. */
  lemma {:induction false} LastEntryBalance(g: Generator, s: State, maxMonths: nat)
    requires ValidMonth(s.cursor) && s.month <= maxMonths
    ensures var r := Simulate(g, s, maxMonths);
      |r.entries| > 0 ==> r.entries[|r.entries| - 1].balance == RoundCents(r.balance)
    decreases maxMonths - s.month
  {
    if Continues(s, maxMonths) {
      LastEntryBalance(g, Advance(g, s), maxMonths);
    }
  }

  /**
   * What a caller of any of the four simulators sees: exactly `totalMonths`
   * entries numbered 1..totalMonths, at most `maxMonths` of them, and,
   * unless the cap was reached, a last balance of at most 0.01 (or no
   * entries at all when the principal was already at most 0.01).
   */
  lemma ScheduleShape(g: Generator, principal: real, cursor: YearMonth, maxMonths: nat)
    requires ValidMonth(cursor)
    ensures var r := Summarize(Simulate(g, Start(principal, cursor), maxMonths));
      && r.totalMonths <= maxMonths
      && |r.schedule| == r.totalMonths
      && (forall i :: 0 <= i < |r.schedule| ==> r.schedule[i].month == i + 1)
      && (r.totalMonths == 0 <==> principal <= 0.01 || maxMonths == 0)
      && (0 < r.totalMonths < maxMonths ==> r.schedule[r.totalMonths - 1].balance <= 0.01)
  {
    var run := Simulate(g, Start(principal, cursor), maxMonths);
    SimulateShape(g, Start(principal, cursor), maxMonths);
    LastEntryBalance(g, Start(principal, cursor), maxMonths);
    if 0 < run.months < maxMonths {
      RoundCentsMonotone(run.balance, 0.01);
      RoundCentsOfCents(0.01);
    }
  }

  // ---------------------------------------------------------------------
  // Payoff

  /**
   * At a rate within the 16% credit-card ceiling, paying the minimum
   * strictly reduces a positive balance every month: the 8% minimum always
   * exceeds a month of daily interest.
   */
  lemma CreditCardMinimumReducesBalance(g: Generator, s: State)
    requires ValidMonth(s.cursor) && g.CreditCard? && UsesMinPayment(g.paymentAmount)
    requires 0.0 <= g.rate <= 16.0 && s.balance > 0.0
    ensures PeriodOf(g, s).balance < s.balance
  {
    var b := s.balance;
    var i := PeriodInterest(g, b, s.cursor);
    CardInterestSmall(b, g.rate, DaysInMonth(s.cursor.year, s.cursor.month), i);
    MinimumBeatsInterest(b, i);
  }

  /** A month of daily interest at no more than 16% a year is at most 2% of the balance. */
  lemma CardInterestSmall(b: real, rate: real, days: int, i: real)
    requires b > 0.0 && 0.0 <= rate <= 16.0 && 1 <= days <= 31
    requires 365.0 * i == b * rate / 100.0 * days as real
    ensures 0.0 <= i <= b * 0.02
  {
    var k := rate / 100.0 / 365.0 * days as real;
    assert rate * days as real <= 16.0 * 31.0 by {
      assert rate * days as real <= 16.0 * days as real;
    }
    assert 0.0 <= k <= 0.02;
    assert i == b * k;
  }

  /** The credit-card minimum on balance plus interest exceeds interest of at most 2% of a positive balance. */
  lemma MinimumBeatsInterest(b: real, i: real)
    requires b > 0.0 && 0.0 <= i <= b * 0.02
    ensures Min(CalculateMinPayment(b + i, "credit_card"), b + i) > i
  {
    var x := b + i;
    if x > 200.0 {
      assert x * 0.08 > i;
    }
  }

  /** The payment beats a month's interest on the balance (the longest, 31-day month for daily interest). */
  predicate Outpaces(g: Generator, balance: real) {
    match g
    case Amortization(rate, monthlyPayment) => monthlyPayment > ReducingBalanceMonthly(balance, rate)
    case DailySchedule(rate, monthlyPayment) => monthlyPayment > DailyAccrual(balance, rate, 31)
    case _ => false
  }

  /** One period of a payment that outpaces the interest: the balance falls and the payment still outpaces. */
  lemma PayoffStep(g: Generator, s: State)
    requires ValidMonth(s.cursor) && (g.Amortization? || g.DailySchedule?) && g.rate >= 0.0
    requires s.balance > 0.0 && Outpaces(g, s.balance)
    ensures var t := Advance(g, s);
      0.0 <= t.balance < s.balance && Outpaces(g, t.balance)
  {
    var p := PeriodOf(g, s);
    if g.DailySchedule? {
      var d := DaysInMonth(s.cursor.year, s.cursor.month);
      DailyAccrualMonotoneInDays(s.balance, g.rate, d, 31);
      DailyAccrualMonotone(p.balance, s.balance, g.rate, 31);
    } else {
      MonthlyInterestMonotone(p.balance, s.balance, g.rate);
    }
  }

  /**
   * Monotonic payoff: when the payment beats the first month's interest at
   * a non-negative rate, it beats every later month's too, and the balance
   * falls strictly over any schedule that runs at least one period.
   */
  lemma {:induction false} MonotonicPayoff(g: Generator, s: State, maxMonths: nat)
    requires ValidMonth(s.cursor) && s.month <= maxMonths
    requires (g.Amortization? || g.DailySchedule?) && g.rate >= 0.0
    requires s.balance >= 0.0 && Outpaces(g, s.balance)
    ensures var r := Simulate(g, s, maxMonths);
      && r.balance <= s.balance
      && (r.months > s.month ==> r.balance < s.balance)
    decreases maxMonths - s.month
  {
    if Continues(s, maxMonths) {
      var t := Advance(g, s);
      PayoffStep(g, s);
      MonotonicPayoff(g, t, maxMonths);
      var rest := Simulate(g, t, maxMonths);
      assert Simulate(g, s, maxMonths).balance == rest.balance;
      assert rest.balance <= t.balance < s.balance;
    }
  }

  /** Under the same conditions the balances the schedule reports never rise. */
  lemma {:induction false} PayoffEntriesNonIncreasing(g: Generator, s: State, maxMonths: nat)
    requires ValidMonth(s.cursor) && s.month <= maxMonths
    requires (g.Amortization? || g.DailySchedule?) && g.rate >= 0.0
    requires s.balance >= 0.0 && Outpaces(g, s.balance)
    ensures var r := Simulate(g, s, maxMonths);
      && (forall i :: 0 <= i < |r.entries| ==> r.entries[i].balance <= RoundCents(s.balance))
      && (forall i, j :: 0 <= i < j < |r.entries| ==> r.entries[j].balance <= r.entries[i].balance)
    decreases maxMonths - s.month
  {
    if Continues(s, maxMonths) {
      var t := Advance(g, s);
      PayoffStep(g, s);
      PayoffEntriesNonIncreasing(g, t, maxMonths);
      RoundCentsMonotone(t.balance, s.balance);
      var e := EntryOf(g, s);
      var rest := Simulate(g, t, maxMonths).entries;
      assert Simulate(g, s, maxMonths) == Prepend([e], Simulate(g, t, maxMonths));
      var entries := [e] + rest;
      assert e.balance == RoundCents(t.balance);
      forall i, j | 0 <= i < j < |entries|
        ensures entries[j].balance <= entries[i].balance
      {
        assert entries[j] == rest[j - 1];
        if i > 0 {
          assert entries[i] == rest[i - 1];
        }
      }
    }
  }

  lemma MonthlyInterestMonotone(b1: real, b2: real, annualRatePercent: real)
    requires 0.0 <= b1 <= b2 && annualRatePercent >= 0.0
    ensures 0.0 <= ReducingBalanceMonthly(b1, annualRatePercent) <= ReducingBalanceMonthly(b2, annualRatePercent)
  {
    var m := MonthlyRate(annualRatePercent);
    assert m >= 0.0;
    assert b1 * m <= b2 * m;
  }

  lemma DailyAccrualMonotoneInDays(balance: real, annualRatePercent: real, d1: int, d2: int)
    requires balance >= 0.0 && annualRatePercent >= 0.0 && 0 <= d1 <= d2
    ensures DailyAccrual(balance, annualRatePercent, d1) <= DailyAccrual(balance, annualRatePercent, d2)
  {
    var k := DailyInterest(balance, annualRatePercent);
    assert k >= 0.0 by {
      assert annualRatePercent / 100.0 / 365.0 >= 0.0;
    }
    assert k * d1 as real <= k * d2 as real;
  }

  // ---------------------------------------------------------------------
  // The billing date as the calendar simulators advance it

  /**
   * The date the credit-card and daily-accrual simulators hold after `k`
   * periods: `currentDate.setMonth(currentDate.getMonth() + 1)` once per
   * period, each step keeping the day of the month and rolling a missing
   * day over into the month after.
   */
  function BillingDateAsWritten(start: Date, k: nat): (d: Date)
    requires ValidDate(start)
    ensures ValidDate(d)
  {
    if k == 0 then start else SetMonthJs(BillingDateAsWritten(start, k - 1), 1)
  }

  /**
   * Up to the 28th the day never rolls over, so the date as written labels
   * period `k` with the month `k` months after the start, as the cursor of
   * `Simulate` does.
   */
  lemma {:induction false} BillingDateAgreesEarlyInMonth(start: Date, k: nat)
    requires ValidDate(start) && start.day <= 28
    ensures BillingDateAsWritten(start, k).day == start.day
    ensures MonthOf(BillingDateAsWritten(start, k)) == AddMonths(MonthOf(start), k)
  {
    if k > 0 {
      BillingDateAgreesEarlyInMonth(start, k - 1);
      var prev := BillingDateAsWritten(start, k - 1);
      var t := AddMonths(MonthOf(prev), 1);
      assert DaysInMonth(t.year, t.month) >= 28;
      assert MonthIndex(t) == MonthIndex(AddMonths(MonthOf(start), k));
    }
  }

  /**
   * Starting on 31 January 2025 the second period is billed for March with
   * its 31 days: February is skipped, where the cursor bills February with
   * 28 days.
   */
  lemma BillingSkipsFebruary()
    ensures BillingDateAsWritten(Date(2025, 1, 31), 1) == Date(2025, 3, 3)
    ensures AddMonths(MonthOf(Date(2025, 1, 31)), 1) == YearMonth(2025, 2)
  {
    var t := AddMonths(YearMonth(2025, 1), 1);
    assert MonthIndex(t) == MonthIndex(YearMonth(2025, 2));
    assert t == YearMonth(2025, 2);
    assert DaysInMonth(2025, 2) == 28;
  }
}
