/**
 * `Utils`: percentages, the Thai month names, the debt and interest type
 * labels, and the month range of the dashboard with the current date
 * passed in.
 */
module Utils {
  import opened Money
  import opened Calendar

  // ---------------------------------------------------------------------
  // percentage

  /** `percentage(part, total)`: 0 for a zero total, otherwise the share in percent rounded to 2 decimals. */
  function Percentage(part: real, total: real): (r: real)
    ensures total == 0.0 ==> r == 0.0
    ensures total != 0.0 ==> IsCents(r) && part / total * 100.0 - 0.005 < r <= part / total * 100.0 + 0.005
  {
    if total == 0.0 then 0.0 else RoundCents(part / total * 100.0)
  }

  /** A part between nothing and the whole is between 0% and 100%, and the whole is exactly 100%. */
  lemma PercentageBounds(part: real, total: real)
    requires total > 0.0 && 0.0 <= part <= total
    ensures 0.0 <= Percentage(part, total) <= 100.0
    ensures part == total ==> Percentage(part, total) == 100.0
  {
    var x := part / total * 100.0;
    assert 0.0 <= part / total <= 1.0;
    RoundCentsNonNegative(x);
    RoundCentsMonotone(x, 100.0);
    assert IsCents(100.0);
    RoundCentsOfCents(100.0);
    if part == total {
      assert x == 100.0;
    }
  }

  // ---------------------------------------------------------------------
  // Month names

  const ShortMonthNames: seq<string> :=
    ["ม.ค.", "ก.พ.", "มี.ค.", "เม.ย.", "พ.ค.", "มิ.ย.", "ก.ค.", "ส.ค.", "ก.ย.", "ต.ค.", "พ.ย.", "ธ.ค."]

  const FullMonthNames: seq<string> :=
    ["มกราคม", "กุมภาพันธ์", "มีนาคม", "เมษายน", "พฤษภาคม", "มิถุนายน",
     "กรกฎาคม", "สิงหาคม", "กันยายน", "ตุลาคม", "พฤศจิกายน", "ธันวาคม"]

  /** `months[monthNum - 1] || ''`: an index outside the table gives `undefined`, hence the empty string. */
  function LookupMonth(names: seq<string>, monthNum: int): string {
    if 1 <= monthNum <= |names| then names[monthNum - 1] else ""
  }

  /** `getMonthName`: the abbreviated name of months 1..12, and `''` for any other number. */
  function GetMonthName(monthNum: int): (r: string)
    ensures 1 <= monthNum <= 12 ==> r == ShortMonthNames[monthNum - 1] && r != ""
    ensures !(1 <= monthNum <= 12) ==> r == ""
  {
    LookupMonth(ShortMonthNames, monthNum)
  }

  /** `getFullMonthName`: the full name of months 1..12, and `''` for any other number. */
  function GetFullMonthName(monthNum: int): (r: string)
    ensures 1 <= monthNum <= 12 ==> r == FullMonthNames[monthNum - 1] && r != ""
    ensures !(1 <= monthNum <= 12) ==> r == ""
  {
    LookupMonth(FullMonthNames, monthNum)
  }

  /** The twelve names in each table are distinct, so a name identifies its month. */
  lemma MonthNamesDistinct(m: int, n: int)
    requires 1 <= m <= 12 && 1 <= n <= 12
    ensures GetMonthName(m) == GetMonthName(n) ==> m == n
    ensures GetFullMonthName(m) == GetFullMonthName(n) ==> m == n
  {
    if m != n {
      assert |ShortMonthNames[m - 1]| != |ShortMonthNames[n - 1]| || ShortMonthNames[m - 1] != ShortMonthNames[n - 1];
    }
  }

  // ---------------------------------------------------------------------
  // Type labels

  const DebtTypeLabels: map<string, string> := map["credit_card" := "บัตรเครดิต", "personal_loan" := "สินเชื่อส่วนบุคคล"]

  const InterestTypeLabels: map<string, string> := map["reducing_balance" := "ลดต้นลดดอก", "daily_accrual" := "เดินรายวัน"]

  /** `map[type] || type`: a known key's label, otherwise the key itself. */
  function Label(labels: map<string, string>, key: string): string {
    if key in labels && labels[key] != "" then labels[key] else key
  }

  /** `debtTypeName`: the label of `credit_card` and `personal_loan`; any other type is shown as itself. */
  function DebtTypeName(debtType: string): (r: string)
    ensures debtType in DebtTypeLabels ==> r == DebtTypeLabels[debtType]
    ensures debtType !in DebtTypeLabels ==> r == debtType
  {
    Label(DebtTypeLabels, debtType)
  }

  /** `interestTypeName`: the label of `reducing_balance` and `daily_accrual`; any other type is shown as itself. */
  function InterestTypeName(interestType: string): (r: string)
    ensures interestType in InterestTypeLabels ==> r == InterestTypeLabels[interestType]
    ensures interestType !in InterestTypeLabels ==> r == interestType
  {
    Label(InterestTypeLabels, interestType)
  }

  /** The types without a label of their own (`personal_loan_vehicle`, `fixed_rate`) are shown by key. */
  lemma UnlabelledTypes()
    ensures DebtTypeName("fixed_rate") == "fixed_rate"
    ensures DebtTypeName("personal_loan_vehicle") == "personal_loan_vehicle"
    ensures DebtTypeName("credit_card") == "บัตรเครดิต"
  {
    assert "fixed_rate" !in DebtTypeLabels by {
      assert "fixed_rate" != "credit_card" && "fixed_rate" != "personal_loan";
    }
    assert "personal_loan_vehicle" !in DebtTypeLabels by {
      assert "personal_loan_vehicle" != "credit_card" && "personal_loan_vehicle" != "personal_loan";
    }
  }

  // ---------------------------------------------------------------------
  // getMonthRange

  /** The result of `getMonthRange`: first and last day, the year, and the 1-based month. */
  datatype MonthRange = MonthRange(start: Date, end: Date, year: int, month: int)

  function RangeOf(c: YearMonth): MonthRange
    requires ValidMonth(c)
  {
    MonthRange(FirstDay(c), LastDay(c), c.year, c.month)
  }

  /**
   * `getMonthRange(offset)` with the current date `now` passed in, as the
   * code evidently means it: the range of the month `offset` months from
   * the current one.
   */
  function GetMonthRange(now: Date, offset: int): (r: MonthRange)
    requires ValidDate(now)
    ensures 1 <= r.month <= 12
    ensures MonthIndex(YearMonth(r.year, r.month)) == MonthIndex(MonthOf(now)) + offset
    ensures r.start == Date(r.year, r.month, 1) && r.end == Date(r.year, r.month, DaysInMonth(r.year, r.month))
  {
    RangeOf(AddMonths(MonthOf(now), offset))
  }

  /**
   * `getMonthRange` as written: `now.setMonth(now.getMonth() + offset)`
   * keeps the day of the month, so a day the target month lacks rolls the
   * date into the month after it.
   */
  function GetMonthRangeAsWritten(now: Date, offset: int): (r: MonthRange)
    requires ValidDate(now)
    ensures 1 <= r.month <= 12
  {
    RangeOf(MonthOf(SetMonthJs(now, offset)))
  }

  /** The range covers exactly the dates of its month, and its length is the month's length. */
  lemma MonthRangeCovers(now: Date, offset: int, d: Date)
    requires ValidDate(now) && ValidDate(d)
    ensures var r := GetMonthRange(now, offset);
      && (DateLe(r.start, d) && DateLe(d, r.end) <==> MonthOf(d) == AddMonths(MonthOf(now), offset))
      && DaysBetween(r.start, r.end) + 1 == DaysInMonth(r.year, r.month)
  {
    var c := AddMonths(MonthOf(now), offset);
    InMonthRange(c, d);
    RangeLength(c);
  }

  lemma RangeLength(c: YearMonth)
    requires ValidMonth(c)
    ensures DaysBetween(FirstDay(c), LastDay(c)) + 1 == DaysInMonth(c.year, c.month)
  {
    var n := DaysInMonth(c.year, c.month);
    MonthSteps(c.year, c.month);
  }

  /** As written and as meant agree on every day up to the 28th, which every month has. */
  lemma MonthRangeAgreesEarlyInMonth(now: Date, offset: int)
    requires ValidDate(now) && now.day <= 28
    ensures GetMonthRangeAsWritten(now, offset) == GetMonthRange(now, offset)
  {
    var t := AddMonths(MonthOf(now), offset);
    assert DaysInMonth(t.year, t.month) >= 28;
  }

  /** On 31 March 2025 the previous month's range is March's, not February's. */
  lemma MonthRangeOverflow()
    ensures GetMonthRangeAsWritten(Date(2025, 3, 31), -1).month == 3
    ensures GetMonthRange(Date(2025, 3, 31), -1).month == 2
  {
    var t := AddMonths(YearMonth(2025, 3), -1);
    assert MonthIndex(t) == MonthIndex(YearMonth(2025, 2));
    assert t == YearMonth(2025, 2);
    assert DaysInMonth(2025, 2) == 28;
  }
}
