/**
 * `DebtModule`: the debt records, the payment ledger, and how a payment is
 * split into interest and principal. The `debts` and `debtPayments` tables
 * are held in memory by `DebtLedger`.
 */
module Debts {
  import opened Results
  import opened Money
  import opened Lists
  import opened Calendar
  import opened Interest

  datatype Status = Active | Paid

  /** A stored debt, as `add` writes it. */
  datatype Debt = Debt(
    name: string, debtType: string, interestType: string,
    principal: real, currentBalance: real, annualRate: real,
    monthlyPayment: real, minPayment: real, termMonths: int,
    startDate: Date, note: string, status: Status,
    totalInterestPaid: real, totalPaid: real, accruedInterest: real, lastInterestDate: Date)

  /** The form handed to `add`; a field that is absent, zero or empty falls back to its default. */
  datatype DebtInput = DebtInput(
    name: string, debtType: string, interestType: string,
    principal: real, currentBalance: Option<real>, annualRate: real,
    monthlyPayment: Option<real>, minPayment: Option<real>, termMonths: Option<int>,
    startDate: Date, note: string)

  /** The fields handed to `update`; only those present are written. */
  datatype DebtPatch = DebtPatch(
    name: Option<string>, debtType: Option<string>, interestType: Option<string>,
    principal: Option<real>, currentBalance: Option<real>, annualRate: Option<real>,
    monthlyPayment: Option<real>, minPayment: Option<real>, termMonths: Option<int>,
    startDate: Option<Date>, note: Option<string>, status: Option<Status>,
    totalInterestPaid: Option<real>, totalPaid: Option<real>, accruedInterest: Option<real>,
    lastInterestDate: Option<Date>)

  /** A row of `debtPayments`. */
  datatype Payment = Payment(
    id: nat, debtId: nat, date: Date, amount: real,
    interestPortion: real, principalPortion: real, balanceAfter: real, note: string)

  /** JavaScript's `x || fallback` on a number: a missing or zero value gives the fallback. */
  function OrElse<T(==)>(x: Option<T>, zero: T, fallback: T): (r: T)
    ensures x.None? || x.value == zero ==> r == fallback
    ensures x.Some? && x.value != zero ==> r == x.value
  {
    if x.None? || x.value == zero then fallback else x.value
  }

  function Pick<T>(x: Option<T>, current: T): (r: T)
    ensures x.Some? ==> r == x.value
    ensures x.None? ==> r == current
  {
    if x.Some? then x.value else current
  }

  /**
   * The record `add` stores: active, nothing paid or accrued yet, interest
   * counted from the start date, the current balance defaulting to the
   * principal and the payments and term to 0.
   */
  function NewDebt(input: DebtInput): (d: Debt)
    ensures d.status == Active
    ensures d.totalInterestPaid == 0.0 && d.totalPaid == 0.0 && d.accruedInterest == 0.0
    ensures d.lastInterestDate == input.startDate == d.startDate
    ensures d.principal == input.principal
    ensures input.currentBalance.None? || input.currentBalance == Some(0.0) ==> d.currentBalance == input.principal
    ensures input.currentBalance.Some? && input.currentBalance.value != 0.0 ==> d.currentBalance == input.currentBalance.value
    ensures d.monthlyPayment == (if input.monthlyPayment.Some? then input.monthlyPayment.value else 0.0)
    ensures d.minPayment == (if input.minPayment.Some? then input.minPayment.value else 0.0)
    ensures d.termMonths == (if input.termMonths.Some? then input.termMonths.value else 0)
    // the descriptive fields, and `interestType`, which picks `recordPayment`'s branch, are copied as given
    ensures d.name == input.name && d.debtType == input.debtType && d.interestType == input.interestType
    ensures d.annualRate == input.annualRate && d.note == input.note
  {
    Debt(input.name, input.debtType, input.interestType,
         input.principal, OrElse(input.currentBalance, 0.0, input.principal), input.annualRate,
         OrElse(input.monthlyPayment, 0.0, 0.0), OrElse(input.minPayment, 0.0, 0.0),
         OrElse(input.termMonths, 0, 0),
         input.startDate, input.note, Active,
         0.0, 0.0, 0.0, input.startDate)
  }

  /** `update` writes the fields present in the patch and keeps the others. */
  function ApplyPatch(d: Debt, p: DebtPatch): (r: Debt)
    ensures p == NoChange() ==> r == d
    ensures r.name == Pick(p.name, d.name) && r.debtType == Pick(p.debtType, d.debtType)
    ensures r.interestType == Pick(p.interestType, d.interestType)
    ensures r.principal == Pick(p.principal, d.principal)
    ensures r.currentBalance == Pick(p.currentBalance, d.currentBalance)
    ensures r.annualRate == Pick(p.annualRate, d.annualRate)
    ensures r.monthlyPayment == Pick(p.monthlyPayment, d.monthlyPayment)
    ensures r.minPayment == Pick(p.minPayment, d.minPayment)
    ensures r.termMonths == Pick(p.termMonths, d.termMonths)
    ensures r.startDate == Pick(p.startDate, d.startDate) && r.note == Pick(p.note, d.note)
    ensures r.status == Pick(p.status, d.status)
    ensures r.totalInterestPaid == Pick(p.totalInterestPaid, d.totalInterestPaid)
    ensures r.totalPaid == Pick(p.totalPaid, d.totalPaid)
    ensures r.accruedInterest == Pick(p.accruedInterest, d.accruedInterest)
    ensures r.lastInterestDate == Pick(p.lastInterestDate, d.lastInterestDate)
  {
    Debt(Pick(p.name, d.name), Pick(p.debtType, d.debtType), Pick(p.interestType, d.interestType),
         Pick(p.principal, d.principal), Pick(p.currentBalance, d.currentBalance), Pick(p.annualRate, d.annualRate),
         Pick(p.monthlyPayment, d.monthlyPayment), Pick(p.minPayment, d.minPayment), Pick(p.termMonths, d.termMonths),
         Pick(p.startDate, d.startDate), Pick(p.note, d.note), Pick(p.status, d.status),
         Pick(p.totalInterestPaid, d.totalInterestPaid), Pick(p.totalPaid, d.totalPaid),
         Pick(p.accruedInterest, d.accruedInterest), Pick(p.lastInterestDate, d.lastInterestDate))
  }

  function NoChange(): DebtPatch {
    DebtPatch(None, None, None, None, None, None, None, None, None, None, None, None, None, None, None, None)
  }

  // ---------------------------------------------------------------------
  // Splitting a payment

  /** How `recordPayment` splits one payment, and what it leaves owing. */
  datatype Allocation = Allocation(
    interestPortion: real, principalPortion: real,
    newBalance: real, accruedInterest: real, lastInterestDate: Date, status: Status)

  /** Dates are whole calendar dates; `daysBetween` needs the month in range. */
  predicate WellFormedDates(d: Debt) {
    1 <= d.lastInterestDate.month <= 12
  }

  /**
   * Interest due at `date`: for daily-accrual debts the carried accrued
   * interest plus daily interest since the last interest date; for every
   * other interest type one month of reducing-balance interest.
   */
  function InterestDue(d: Debt, date: Date): (r: real)
    requires WellFormedDates(d) && 1 <= date.month <= 12
    ensures d.interestType == "daily_accrual" ==>
      365.0 * (r - d.accruedInterest) == d.currentBalance * d.annualRate / 100.0 * DaysBetween(d.lastInterestDate, date) as real
    ensures d.interestType != "daily_accrual" ==> 12.0 * r == d.currentBalance * d.annualRate / 100.0
    ensures d.currentBalance >= 0.0 && d.annualRate >= 0.0 && d.accruedInterest >= 0.0 ==> r >= 0.0
  {
    AccrualNonNegative(d.currentBalance, d.annualRate, DaysBetween(d.lastInterestDate, date));
    if d.interestType == "daily_accrual" then
      d.accruedInterest + DailyAccrual(d.currentBalance, d.annualRate, DaysBetween(d.lastInterestDate, date))
    else
      ReducingBalanceMonthly(d.currentBalance, d.annualRate)
  }

  lemma AccrualNonNegative(balance: real, annualRatePercent: real, days: nat)
    ensures balance >= 0.0 && annualRatePercent >= 0.0 ==>
      ReducingBalanceMonthly(balance, annualRatePercent) >= 0.0 && DailyAccrual(balance, annualRatePercent, days) >= 0.0
  {
    if balance >= 0.0 && annualRatePercent >= 0.0 {
      assert MonthlyRate(annualRatePercent) >= 0.0;
      assert balance * MonthlyRate(annualRatePercent) >= 0.0;
      DailyAccrualMonotone(0.0, balance, annualRatePercent, days);
    }
  }

  /**
   * The split: interest is paid first, up to what is due, and the rest of
   * the payment goes to principal. The balance is clamped at zero and the
   * debt is paid once at most 0.01 would remain. Only daily-accrual debts
   * carry unpaid interest and move their last interest date.
   */
  function Allocate(d: Debt, amount: real, date: Date): (a: Allocation)
    requires WellFormedDates(d) && 1 <= date.month <= 12
    ensures a.interestPortion + a.principalPortion == amount
    ensures a.interestPortion == Min(amount, InterestDue(d, date))
    ensures a.principalPortion >= 0.0
    ensures a.newBalance == Max(0.0, d.currentBalance - a.principalPortion) && a.newBalance >= 0.0
    ensures a.status == Paid <==> d.currentBalance - a.principalPortion <= 0.01
    ensures d.interestType == "daily_accrual" ==>
      && a.accruedInterest == Max(0.0, InterestDue(d, date) - a.interestPortion)
      && a.lastInterestDate == date
    ensures d.interestType != "daily_accrual" ==>
      a.accruedInterest == d.accruedInterest && a.lastInterestDate == d.lastInterestDate
  {
    var due := InterestDue(d, date);
    var interestPortion := Min(amount, due);
    var principalPortion := amount - interestPortion;
    var status := if d.currentBalance - principalPortion <= 0.01 then Paid else Active;
    var newBalance := Max(0.0, d.currentBalance - principalPortion);
    if d.interestType == "daily_accrual" then
      Allocation(interestPortion, principalPortion, newBalance, Max(0.0, due - interestPortion), date, status)
    else
      Allocation(interestPortion, principalPortion, newBalance, d.accruedInterest, d.lastInterestDate, status)
  }

  /** The fields `recordPayment` hands to `update`. */
  function PaymentPatch(d: Debt, amount: real, date: Date): DebtPatch
    requires WellFormedDates(d) && 1 <= date.month <= 12
  {
    var a := Allocate(d, amount, date);
    var daily := d.interestType == "daily_accrual";
    DebtPatch(None, None, None, None, Some(a.newBalance), None, None, None, None, None, None, Some(a.status),
              Some(d.totalInterestPaid + a.interestPortion), Some(d.totalPaid + amount),
              if daily then Some(a.accruedInterest) else None,
              if daily then Some(a.lastInterestDate) else None)
  }

  /** The debt after a payment. */
  function PaidDown(d: Debt, amount: real, date: Date): Debt
    requires WellFormedDates(d) && 1 <= date.month <= 12
  {
    ApplyPatch(d, PaymentPatch(d, amount, date))
  }

  /**
   * What a payment does to a debt: the balance drops by the principal
   * portion (never below zero), the totals grow by the amount and the
   * interest portion, the allocation's accrued interest, date and status
   * are written, and the description fields are untouched.
   */
  lemma PaymentEffects(d: Debt, amount: real, date: Date)
    requires WellFormedDates(d) && 1 <= date.month <= 12
    ensures var a := Allocate(d, amount, date);
            var e := PaidDown(d, amount, date);
      && e.currentBalance == a.newBalance
      && e.totalPaid == d.totalPaid + amount
      && e.totalInterestPaid == d.totalInterestPaid + a.interestPortion
      && e.totalPaid - e.totalInterestPaid == d.totalPaid - d.totalInterestPaid + a.principalPortion
      && e.accruedInterest == a.accruedInterest && e.lastInterestDate == a.lastInterestDate
      && e.status == a.status
      && e.(currentBalance := d.currentBalance, totalPaid := d.totalPaid, totalInterestPaid := d.totalInterestPaid,
            accruedInterest := d.accruedInterest, lastInterestDate := d.lastInterestDate, status := d.status) == d
  {
    var a := Allocate(d, amount, date);
    assert a.interestPortion + a.principalPortion == amount;
  }

  /**
   * A payment that covers everything owed — the balance plus the interest
   * due — marks the debt paid and leaves nothing; one that leaves more than
   * 0.01 keeps it active.
   */
  lemma PaymentSettlesDebt(d: Debt, amount: real, date: Date)
    requires WellFormedDates(d) && 1 <= date.month <= 12
    ensures amount >= d.currentBalance + InterestDue(d, date) ==>
      PaidDown(d, amount, date).status == Paid && PaidDown(d, amount, date).currentBalance == 0.0
    ensures 0.0 <= amount < d.currentBalance - 0.01 && InterestDue(d, date) >= 0.0 ==>
      PaidDown(d, amount, date).status == Active
  {
    var a := Allocate(d, amount, date);
    var due := InterestDue(d, date);
    if amount >= d.currentBalance + due {
      if amount <= due {
        assert a.principalPortion == 0.0;
      } else {
        assert a.principalPortion == amount - due;
      }
    }
  }

  /** A payment made on the last interest date of a daily-accrual debt is charged only the carried interest. */
  lemma SameDayPayment(d: Debt, amount: real)
    requires WellFormedDates(d) && ValidDate(d.lastInterestDate) && d.interestType == "daily_accrual"
    ensures InterestDue(d, d.lastInterestDate) == d.accruedInterest
  {
    DaysBetweenZero(d.lastInterestDate, d.lastInterestDate);
    var i := DailyAccrual(d.currentBalance, d.annualRate, 0);
    assert 365.0 * i == 0.0;
  }

  // ---------------------------------------------------------------------
  // The tables

  /** The `debts` and `debtPayments` tables, with their auto-increment keys (starting at 1). */
  class DebtLedger {
    var debts: map<nat, Debt>
    var payments: seq<Payment>
    var nextDebtId: nat
    var nextPaymentId: nat

    /**
     * Keys are below the next key to hand out, every stored debt has
     * well-formed dates, and every payment belongs to a stored debt.
     */
    ghost predicate Valid()
      reads this
    {
      && 1 <= nextDebtId && 1 <= nextPaymentId
      && (forall id :: id in debts ==> 0 < id < nextDebtId && WellFormedDates(debts[id]))
      && (forall i :: 0 <= i < |payments| ==> 0 < payments[i].id < nextPaymentId)
      && (forall i :: 0 <= i < |payments| ==> payments[i].debtId in debts)
    }

    constructor ()
      ensures Valid()
      ensures debts == map[] && payments == [] && nextDebtId == 1 && nextPaymentId == 1
    {
      debts := map[];
      payments := [];
      nextDebtId := 1;
      nextPaymentId := 1;
    }

    /** `add`: stores `NewDebt(input)` under a fresh key and returns the key. */
    method Add(input: DebtInput) returns (id: nat)
      requires Valid() && 1 <= input.startDate.month <= 12
      modifies this
      ensures Valid()
      ensures id == old(nextDebtId) && id !in old(debts)
      ensures debts == old(debts)[id := NewDebt(input)]
      ensures payments == old(payments) && nextPaymentId == old(nextPaymentId)
    {
      id := nextDebtId;
      debts := debts[id := NewDebt(input)];
      nextDebtId := nextDebtId + 1;
    }

    /** `update`: writes the patch into the stored debt; returns 1, or 0 and changes nothing when the key is absent. */
    method Update(id: nat, patch: DebtPatch) returns (count: nat)
      requires Valid()
      requires patch.lastInterestDate.Some? ==> 1 <= patch.lastInterestDate.value.month <= 12
      modifies this
      ensures Valid()
      ensures id in old(debts) ==> count == 1 && debts == old(debts)[id := ApplyPatch(old(debts)[id], patch)]
      ensures id !in old(debts) ==> count == 0 && debts == old(debts)
      ensures payments == old(payments) && nextDebtId == old(nextDebtId) && nextPaymentId == old(nextPaymentId)
    {
      if id in debts {
        debts := debts[id := ApplyPatch(debts[id], patch)];
        count := 1;
      } else {
        count := 0;
      }
    }

    /** `delete`: removes the debt's payments, then the debt. */
    method Delete(id: nat)
      requires Valid()
      modifies this
      ensures Valid()
      ensures debts == old(debts) - {id}
      ensures payments == Filter(old(payments), (p: Payment) => p.debtId != id)
      ensures nextDebtId == old(nextDebtId) && nextPaymentId == old(nextPaymentId)
    {
      payments := Filter(payments, (p: Payment) => p.debtId != id);
      debts := debts - {id};
    }

    /**
     * `recordPayment`: fails, writing nothing, when no debt has the key;
     * otherwise updates the debt with `PaymentPatch` and appends a payment
     * whose portions are the allocation's and whose `balanceAfter` is the
     * debt's new balance, returning the payment's key.
     */
    method RecordPayment(debtId: nat, amount: real, date: Date, note: string) returns (r: Result<nat, string>)
      requires Valid() && 1 <= date.month <= 12
      modifies this
      ensures Valid()
      ensures debtId !in old(debts) ==>
        r.Err? && debts == old(debts) && payments == old(payments) && nextPaymentId == old(nextPaymentId)
      ensures debtId in old(debts) ==>
        var d := old(debts)[debtId];
        var a := Allocate(d, amount, date);
        && r == Ok(old(nextPaymentId))
        && debts == old(debts)[debtId := PaidDown(d, amount, date)]
        && payments == old(payments) + [Payment(old(nextPaymentId), debtId, date, amount,
                                                a.interestPortion, a.principalPortion, a.newBalance, note)]
        && debts[debtId].currentBalance == payments[|payments| - 1].balanceAfter
        && nextPaymentId == old(nextPaymentId) + 1
      ensures nextDebtId == old(nextDebtId)
    {
      if debtId !in debts {
        return Err("debt not found");
      }
      var debt := debts[debtId];
      var a := Allocate(debt, amount, date);
      var _ := Update(debtId, PaymentPatch(debt, amount, date));
      var id := nextPaymentId;
      payments := payments + [Payment(id, debtId, date, amount, a.interestPortion, a.principalPortion, a.newBalance, note)];
      nextPaymentId := nextPaymentId + 1;
      r := Ok(id);
    }
  }

  // ---------------------------------------------------------------------
  // Summaries over the list `getAll` returns

  predicate IsActive(d: Debt) {
    d.status == Active
  }

  function Balance(d: Debt): real {
    d.currentBalance
  }

  predicate IsPaid(d: Debt) {
    d.status == Paid
  }

  /** `getTotalDebt`: the balances of the active debts. */
  function GetTotalDebt(debts: seq<Debt>): (r: real)
    ensures (forall d :: d in debts ==> d.currentBalance >= 0.0) ==> r >= 0.0
    ensures (forall d :: d in debts ==> d.status == Paid) ==> r == 0.0
  {
    ActiveBalances(debts);
    Sum(Filter(debts, IsActive), Balance)
  }

  lemma ActiveBalances(debts: seq<Debt>)
    ensures (forall d :: d in debts ==> d.currentBalance >= 0.0) ==> Sum(Filter(debts, IsActive), Balance) >= 0.0
    ensures (forall d :: d in debts ==> d.status == Paid) ==> Filter(debts, IsActive) == []
  {
    var active := Filter(debts, IsActive);
    if forall d :: d in debts ==> d.currentBalance >= 0.0 {
      forall d | d in active
        ensures Balance(d) >= 0.0
      {
        var i :| 0 <= i < |active| && active[i] == d;
      }
      SumNonNegative(active, Balance);
    }
  }

  datatype DebtSummary = DebtSummary(
    totalDebt: real, totalOriginal: real, totalInterestPaid: real, totalPaid: real,
    activeCount: nat, paidCount: nat, debts: seq<Debt>)

  function Principal(d: Debt): real { d.principal }
  function InterestPaid(d: Debt): real { d.totalInterestPaid }
  function AmountPaid(d: Debt): real { d.totalPaid }

  /** `getDebtSummary`: balances of active debts, the other totals over all debts, and the counts by status. */
  function GetDebtSummary(debts: seq<Debt>): (s: DebtSummary)
    ensures s.totalDebt == GetTotalDebt(debts)
    ensures s.activeCount + s.paidCount == |debts|
    ensures s.activeCount == |Filter(debts, IsActive)|
    ensures s.totalOriginal == Sum(debts, Principal)
    ensures s.totalInterestPaid == Sum(debts, InterestPaid) && s.totalPaid == Sum(debts, AmountPaid)
    ensures s.debts == debts
  {
    SumPartition(debts, IsActive, IsPaid, Balance);
    DebtSummary(
      Sum(Filter(debts, IsActive), Balance),
      Sum(debts, Principal),
      Sum(debts, InterestPaid),
      Sum(debts, AmountPaid),
      |Filter(debts, IsActive)|,
      |Filter(debts, IsPaid)|,
      debts)
  }

  /**
   * The balances of all debts are the total debt plus the balances left on
   * paid debts; with non-negative balances the total debt never exceeds them.
   */
  lemma TotalDebtSplit(debts: seq<Debt>)
    ensures Sum(debts, Balance) == GetTotalDebt(debts) + Sum(Filter(debts, IsPaid), Balance)
    ensures (forall d :: d in debts ==> d.currentBalance >= 0.0) ==> GetTotalDebt(debts) <= Sum(debts, Balance)
  {
    SumPartition(debts, IsActive, IsPaid, Balance);
    var paid := Filter(debts, IsPaid);
    if forall d :: d in debts ==> d.currentBalance >= 0.0 {
      forall d | d in paid
        ensures Balance(d) >= 0.0
      {
        var i :| 0 <= i < |paid| && paid[i] == d;
      }
      SumNonNegative(paid, Balance);
    }
  }
}
