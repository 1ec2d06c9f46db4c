# finance-manager: a verified model of the debt-interest engine and the bookkeeping around it

finance-manager is a personal-finance web application in Thai. Its domain logic is in four JavaScript modules, and this project models them in Dafny.

- **The interest engine** (`InterestEngine`):
  - the Bank of Thailand rate-policy table and its lookup;
  - the rate-ceiling check;
  - the credit-card minimum payment;
  - the one-period interest formulas;
  - the day count between two dates;
  - the annuity payment formula;
  - the four month-by-month payoff simulators;
  - the comparison of paying the minimum against paying extra.
- **The debt ledger** (`DebtModule`):
  - adding, updating and deleting debts;
  - recording a payment, which splits it into interest and principal, updates the debt and appends a payment row;
  - the debt totals and the summary.
- **Transactions** (`TransactionModule`):
  - the filters of the transaction list;
  - the income/expense summary with its per-category breakdown;
  - the monthly summary;
  - the category filter.
- **Helpers** (`Utils`):
  - percentages;
  - the Thai month names;
  - the debt and interest type labels;
  - the month range of an offset month.

Modules, one concept each:

| file | module | models |
|---|---|---|
| `money.dfy` | `Results`, `Money`, `Lists` | `Option`/`Result`; rounding to cents (`Math.round(x * 100) / 100`); `filter` and `reduce` sums |
| `calendar.dfy` | `Calendar` | dates as year/month/day in ISO string order; day numbers for `daysBetween`; the `(year, month)` billing cursor; JavaScript's `setMonth` with day overflow |
| `interest.dfy` | `Interest` | `BOT_RATES`, `getBOTConfig`, `validateRate`, `calculateMinPayment`, the interest formulas, `calculateMonthlyPayment` |
| `schedules.dfy` | `Schedules` | the four `generate*Schedule` loops as methods, each proved equal to one shared recursive specification `Simulate` |
| `comparator.dfy` | `Comparator` | `comparePayments` |
| `debts.dfy` | `Debts` | the payment split `Allocate`; the class `DebtLedger`, which holds the `debts` and `debtPayments` tables; `getTotalDebt` and `getDebtSummary` |
| `transactions.dfy` | `Transactions` | `getAll`, `getSummary` (its `byCategory` loop is a method), `getMonthlySummary`, `getCategories` |
| `utils.dfy` | `Utils` | `percentage`, `getMonthName`, `getFullMonthName`, `debtTypeName`, `interestTypeName`, `getMonthRange` |

Representation choices:

- Money is an exact `real`. The only rounding the program does is `Math.round(x * 100) / 100`. It is `Money.RoundCents`, written as floor(100x + 1/2) / 100, because `Math.round` rounds halves up.
- Each database table is a value:
  - a `map` keyed by the auto-increment id, or a `seq`, inside `DebtLedger`;
  - for the read-only queries, an input sequence: the `date` index scan for `getAll`, the `getAll` list for the debt summaries.
- The current date is a parameter wherever the code reads the clock.

## Model

| member | source | states |
|---|---|---|
| `Interest.GetBotConfig` | src/modules/interest.js:7-39 | The entry of a known debt type, and the `personal_loan` entry for any other type. |
| `Interest.BotConfigFromTable` | src/modules/interest.js:37-39 | Whatever the debt type, the configuration used is one of the table's four entries. |
| `Interest.BotRatesShape` | src/modules/interest.js:7-34 | Only `credit_card` has a minimum-payment rule and daily accrual; every ceiling lies between 16% and 25%. |
| `Interest.ValidateRate` | src/modules/interest.js:42-52 | `maxRate` is the type's ceiling, `currentRate` the rate, and `isOverLimit` holds iff the rate is above the ceiling. |
| `Interest.CreditCardCeilingBoundary` | src/modules/interest.js:9 | A credit-card rate of exactly 16% is within the ceiling; 16.01% is over it. |
| `Interest.CalculateMinPayment` | src/modules/interest.js:57-64 | 0 for a type without a rule. On a credit card: the whole balance up to 200; above 200, at least 200 and 8% of the balance and equal to one of them; never more than a non-negative balance. |
| `Interest.MinPaymentExamples` | src/modules/interest.js:57-64 | Concrete values: 150 owes 150, 10000 owes 800, and a personal loan owes no minimum. |
| `Interest.ReducingBalanceMonthly` | src/modules/interest.js:68-70 | Twelve months of it are a year's interest `balance * rate / 100`. |
| `Interest.DailyInterest` | src/modules/interest.js:74-76 | 365 days of it are a year's interest. |
| `Interest.DailyAccrual` | src/modules/interest.js:79-81 | 365 times it is a year's interest times the number of days. |
| `Interest.FlatMonthlyInterest` | src/modules/interest.js:139 | Twelve months of it are a year's interest on the principal passed in. |
| `Interest.FormulaExamples` | src/modules/interest.js:68-81 | 120000 at 24% is charged 2400 a month; daily accrual is daily interest times the days. |
| `Interest.DailyAccrualAdditive` | src/modules/interest.js:79-81 | Accruing over d1 and then d2 days equals accruing over d1 + d2 days. |
| `Interest.YearOfInterest` | src/modules/interest.js:68-81 | 365 days of daily accrual equal twelve months of reducing-balance interest. |
| `Interest.DailyAccrualMonotone` | src/modules/interest.js:79-81 | At a non-negative rate and day count, accrual is non-negative and grows with the balance. |
| `Interest.CalculateMonthlyPayment` | src/modules/interest.js:282-286 | The annuity payment, `principal / termMonths` at a zero rate; non-negative for a non-negative principal. |
| `Interest.AnnuityQuotient` | src/modules/interest.js:285 | The payment `p` satisfies `p * ((1+r)^n - 1) == principal * r * (1+r)^n`. |
| `Interest.MonthlyPaymentRepaysLoan` | src/modules/interest.js:280-286 | Paying the computed payment every month, with the balance growing by a month's interest each month, leaves exactly 0 after `termMonths` months. |
| `Interest.GeometricSumClosed` | src/modules/interest.js:285 | `(1 + q + ... + q^(k-1)) * (q - 1) == q^k - 1`, the identity behind the annuity formula. |
| `Interest.CompoundedClosed` | src/modules/interest.js:285 | The balance after k months of growth and payment in closed form. |
| `Calendar.DaysInMonth` | src/modules/interest.js:192 | `new Date(y, m, 0).getDate()`: 28 to 31 days, 29 exactly for a leap-year February. |
| `Calendar.DaysBetween` | src/modules/interest.js:84-88 | When the second date is later, the first date's day number plus the result is the second's; otherwise the result is 0. |
| `Calendar.DaysBetweenZero` | src/modules/interest.js:84-88 | `daysBetween` is never negative and is 0 exactly when the second date is not after the first. |
| `Calendar.DaysBetweenNextDay` | src/modules/interest.js:84-88 | Consecutive dates are one day apart, also across month and year ends. |
| `Calendar.DayNumberIncreasing` | src/modules/interest.js:84-88 | Day numbers grow with the ISO date order, so the day count agrees with string comparison. |
| `Calendar.MonthLength` | src/modules/interest.js:192 | A month's length is the day count from its first day to the next month's first day. |
| `Calendar.AddMonths` | src/modules/utils.js:29 | Moving by k months gives a valid month whose index is k more. |
| `Calendar.NextMonth` | src/modules/interest.js:224 | Advancing the billing cursor is moving it by one month. |
| `Calendar.SetMonthJs` | src/modules/utils.js:29 | `setMonth(getMonth() + k)` with day overflow always yields a valid date. |
| `Calendar.InMonthRange` | src/modules/transactions.js:70-74 | A valid date lies between a month's first and last day iff it is in that month. |
| `Schedules.Settle` | src/modules/interest.js:99-106 | One period: the payment is the requested amount capped at balance plus interest, and payment = interest + principal. The new balance is never negative, drops by exactly the principal part, is 0 iff the request covers everything, and falls strictly when the payment beats the interest. |
| `Schedules.GenerateAmortizationSchedule` | src/modules/interest.js:92-125 | The loop's result is `Summarize(Simulate(Amortization(...)))`. |
| `Schedules.GenerateFixedRateSchedule` | src/modules/interest.js:129-173 | The loop's result is `Summarize(Simulate(FixedRate(...)))`, with interest fixed from the principal passed in. |
| `Schedules.GenerateCreditCardSchedule` | src/modules/interest.js:178-233 | The loop's result is `Summarize(Simulate(CreditCard(...)))`, starting from the start date's month. |
| `Schedules.GenerateDailyAccrualSchedule` | src/modules/interest.js:236-278 | The loop's result is `Summarize(Simulate(DailySchedule(...)))`, starting from the start date's month. |
| `Schedules.Simulate` | src/modules/interest.js:99-119 | A run starting at month `s.month` ends between it and `maxMonths`, ends before `maxMonths` only with balance ≤ 0.01, and runs no period iff the loop condition fails at the start. |
| `Schedules.SimulateShape` | src/modules/interest.js:99-119 | The loop runs at most `maxMonths` periods, one entry per period numbered consecutively. It stops early only with balance ≤ 0.01, and runs no period iff the loop condition fails at once. |
| `Schedules.ScheduleShape` | src/modules/interest.js:92-125 | Every schedule has exactly `totalMonths ≤ maxMonths` entries numbered 1..totalMonths. It is empty iff the principal is ≤ 0.01 or the cap is 0, and when it stops before the cap its last balance is ≤ 0.01. |
| `Schedules.SimulateEntries` | src/modules/interest.js:109-117 | Every entry's balance is non-negative, and its rounded interest and principal add up to its payment within one cent. |
| `Schedules.SimulateConservation` | src/modules/interest.js:99-106 | Total paid minus total interest is exactly the drop in the balance over the run. |
| `Schedules.CardMonth` | src/modules/interest.js:188-224 | One pass of the credit-card loop yields exactly the next simulation state and the entry `EntryOf` prescribes for the month. |
| `Schedules.CardPayment` | src/modules/interest.js:197-204 | The payment is the minimum on balance plus interest (capped at that amount) in minimum mode, otherwise the given amount capped at what is owed. |
| `Schedules.SimulateCycles` | src/modules/interest.js:190-192 | The calendar simulators label entry i with the i-th month after the start and its true day count. |
| `Schedules.FixedRateInterestConstant` | src/modules/interest.js:139-143 | Every flat-rate entry charges the same interest, a twelfth of a year's interest on the principal passed in. |
| `Schedules.LastEntryBalance` | src/modules/interest.js:113-114 | The last entry's balance is the run's final balance rounded to cents. |
| `Schedules.CreditCardMinimumReducesBalance` | src/modules/interest.js:198-201 | On the minimum-payment rule, at a rate within the 16% ceiling, every period strictly lowers a positive balance. |
| `Schedules.PayoffStep` | src/modules/interest.js:99-106 | A payment that beats a month's interest lowers the balance and still beats the interest on the lower balance. |
| `Schedules.MonotonicPayoff` | src/modules/interest.js:92-125 | With such a payment the final balance is at most the starting one, and below it once any period ran. |
| `Schedules.PayoffEntriesNonIncreasing` | src/modules/interest.js:113-114 | With such a payment the balances in the schedule never rise. |
| `Schedules.MonthlyInterestMonotone` | src/modules/interest.js:68-70 | Monthly interest is non-negative and grows with the balance. |
| `Schedules.DailyAccrualMonotoneInDays` | src/modules/interest.js:79-81 | More days never accrue less interest. |
| `Schedules.BillingDateAsWritten` | src/modules/interest.js:224 | The date the calendar simulators hold after k periods of `setMonth(getMonth() + 1)` is a valid date. |
| `Schedules.BillingDateAgreesEarlyInMonth` | src/modules/interest.js:224 | For a start day up to the 28th, the date as written keeps its day and lies in the month k months after the start, the month the cursor gives. |
| `Schedules.BillingSkipsFebruary` | src/modules/interest.js:224 | Starting on 31 January 2025, the second period as written is 3 March; the cursor gives February. |
| `Comparator.GeneratorFor` | src/modules/interest.js:290-301 | A credit card runs the credit-card simulator with the payment; every other type, `fixed_rate` included, runs the amortization simulator. |
| `Comparator.FixedRateComparedByAmortization` | src/modules/interest.js:297-300 | `fixed_rate` debts are compared with reducing-balance, not flat, interest. |
| `Comparator.Compare` | src/modules/interest.js:306-322 | Both runs' totals are reported, `savings.months` is their month difference, and the money savings are whole cents, non-negative whenever the extra run paid no more. |
| `Comparator.ComparePayments` | src/modules/interest.js:289-323 | The result is `Compare` of the chosen simulator's runs at `minPayment` and at `minPayment + extraPayment`. |
| `Comparator.RunChosen` | src/modules/interest.js:290-301 | `genFn(p)` returns exactly the schedule of the simulator `GeneratorFor` picks for the debt type, run at payment `p`. |
| `Comparator.PeriodMonotone` | src/modules/interest.js:99-106 | One period of a simulator paying at least as much, from no larger a balance, leaves no larger a balance. |
| `Comparator.RunMonotone` | src/modules/interest.js:92-278 | A simulator paying at least as much finishes no later and pays no more interest in total. |
| `Comparator.ExtraPaymentSaves` | src/modules/interest.js:289-321 | With non-negative principal, rate and extra amount, `savings.months` and `savings.interest` are non-negative, except for the mixed credit-card case below. |
| `Comparator.MixedCreditCardModes` | src/modules/interest.js:289-304 | A 400 card at 0% with minimum 0 and extra 199 has `savings.months == -1`: the minimum run follows the 200-baht rule, the extra run pays 199. |
| `Debts.NewDebt` | src/modules/debts.js:14-34 | A new debt is active with nothing paid or accrued, counts interest from its start date, and keeps its principal. An absent or zero current balance becomes the principal. Absent monthly and minimum payments and an absent term become 0, and given ones are kept. Name, debt type, interest type, rate and note are copied as given. |
| `Debts.ApplyPatch` | src/modules/debts.js:37-44 | `update` writes exactly the fields present: each of the sixteen fields takes the patch's value when given and keeps the debt's otherwise. An empty patch changes nothing. |
| `Debts.InterestDue` | src/modules/debts.js:61-80 | For daily accrual: the carried interest plus `balance · rate/100 · days/365` since the last interest date. For other types: one month's interest `balance · rate/100 / 12`. Non-negative for non-negative inputs. |
| `Debts.Allocate` | src/modules/debts.js:56-90 | The split sums to the amount: interest is `min(amount, due)` and principal is never negative. The new balance is `max(0, balance - principal)`, and the status is paid iff `balance - principal ≤ 0.01`. For daily accrual the unpaid interest is carried and the date moves to the payment's; for other types both are untouched. |
| `Debts.PaymentEffects` | src/modules/debts.js:70-89 | After a payment, `totalPaid` grows by the amount and `totalInterestPaid` by the interest portion, and their difference grows by the principal portion. The balance, accrued interest, date and status are the split's, and no other field changes. |
| `Debts.PaymentSettlesDebt` | src/modules/debts.js:71-88 | Paying balance plus interest due settles the debt at 0. A payment leaving more than 0.01 keeps it active. |
| `Debts.SameDayPayment` | src/modules/debts.js:61-65 | A daily-accrual payment on the last interest date is charged only the carried interest. |
| `Debts.DebtLedger.constructor` | src/modules/debts.js:5 | Empty tables whose keys start at 1. |
| `Debts.DebtLedger.Add` | src/modules/debts.js:14-35 | The new debt is stored under the next fresh key, which is returned; payments are untouched. |
| `Debts.DebtLedger.Update` | src/modules/debts.js:37-45 | Returns 1 and writes the patch into a stored debt, or returns 0 and changes nothing when the key is absent. |
| `Debts.DebtLedger.Delete` | src/modules/debts.js:47-50 | Removes the debt and exactly its payments, keeping the others in order. |
| `Debts.DebtLedger.RecordPayment` | src/modules/debts.js:52-102 | An unknown id is an error with no debt and no payment written. Otherwise the debt becomes `PaidDown`, and a payment with the split's portions is appended; its `balanceAfter` is the debt's new balance and its key is returned. |
| `Debts.GetDebtSummary` | src/modules/debts.js:117-131 | `totalDebt` is `getTotalDebt` (active balances only); the other totals sum all debts; active and paid counts add up to the number of debts. |
| `Debts.GetTotalDebt` | src/modules/debts.js:112-115 | The total debt is non-negative when every balance is, and 0 when every debt is paid. |
| `Debts.TotalDebtSplit` | src/modules/debts.js:112-123 | All balances are the total debt plus the balances of paid debts, so with non-negative balances the total debt never exceeds them. |
| `Transactions.ToLower` | src/modules/transactions.js:22-25 | Lower-casing keeps the length and maps each character. |
| `Transactions.ToLowerIdempotent` | src/modules/transactions.js:22-25 | Lower-casing twice is lower-casing once. |
| `Transactions.ContainsIff` | src/modules/transactions.js:24-25 | `includes` holds iff the needle occurs at some position of the haystack. |
| `Transactions.GetAll` | src/modules/transactions.js:5-28 | The result is a sub-multiset of the table, so it is never longer. |
| `Transactions.GetAllCount` | src/modules/transactions.js:5-28 | Each transaction appears in the result exactly as often as in the table if it passes every active filter, and otherwise not at all. |
| `Transactions.GetAllMembers` | src/modules/transactions.js:5-28 | A transaction is in the result iff it is in the table and matches the filters. |
| `Transactions.GetAllOrder` | src/modules/transactions.js:6-7 | The result is newest first, and with no filters it is the whole table reversed. |
| `Transactions.InRangeExact` | src/modules/transactions.js:52-54 | The summary's range keeps exactly the transactions within the inclusive dates given. |
| `Transactions.ByCategory` | src/modules/transactions.js:59-65 | The `forEach` loop builds exactly `BreakdownOf(txns)`. |
| `Transactions.TallyStep` | src/modules/transactions.js:60-65 | One step of the loop, done in place on the key list and the totals map, has the effect of `Tally` on the breakdown. |
| `Transactions.BreakdownOf` | src/modules/transactions.js:59-65 | The breakdown lists each category once and has totals for each. |
| `Transactions.BreakdownKeys` | src/modules/transactions.js:59-63 | The breakdown has an entry for a category iff some transaction has it. |
| `Transactions.BreakdownColumn` | src/modules/transactions.js:64 | A column of the breakdown, summed over the categories, is the total of the transactions of that type. |
| `Transactions.BreakdownTotals` | src/modules/transactions.js:56-65 | The income and expense columns summed over all categories equal `income` and `expense`. |
| `Transactions.SummaryOf` | src/modules/transactions.js:56-67 | `balance == income - expense`, `count` is the number of transactions, and income and expense sum the transactions of their type. |
| `Transactions.GetSummary` | src/modules/transactions.js:51-68 | The summary of the transactions in the inclusive date range. |
| `Transactions.GetMonthlySummary` | src/modules/transactions.js:70-75 | The summary from the month's first day to its last. |
| `Transactions.MonthlyWindow` | src/modules/transactions.js:70-75 | The monthly range keeps exactly the transactions dated in that month. |
| `Transactions.GetCategories` | src/modules/transactions.js:77-81 | Exactly the categories of the type, and all of them for an empty type. |
| `Utils.Percentage` | src/modules/utils.js:73-76 | 0 for a zero total; otherwise whole cents within half a cent of `part / total * 100`. |
| `Utils.PercentageBounds` | src/modules/utils.js:73-76 | A part between 0 and the total gives 0..100, and the whole gives exactly 100. |
| `Utils.GetMonthName` | src/modules/utils.js:38-42 | The table's non-empty abbreviation for months 1..12, `""` otherwise. |
| `Utils.GetFullMonthName` | src/modules/utils.js:44-48 | The table's non-empty full name for months 1..12, `""` otherwise. |
| `Utils.MonthNamesDistinct` | src/modules/utils.js:38-48 | Distinct months have distinct names in both tables. |
| `Utils.DebtTypeName` | src/modules/utils.js:50-53 | The label of a known type, the type itself otherwise. |
| `Utils.InterestTypeName` | src/modules/utils.js:55-58 | The label of a known interest type, the key itself otherwise. |
| `Utils.UnlabelledTypes` | src/modules/utils.js:50-53 | `fixed_rate` and `personal_loan_vehicle` have no label and are shown by key. |
| `Utils.GetMonthRange` | src/modules/utils.js:27-36 | The offset month's range, as intended: month 1..12 exactly `offset` months from the current one, from its first to its last day. |
| `Utils.GetMonthRangeAsWritten` | src/modules/utils.js:27-36 | The range of the month `setMonth` lands on, with a month in 1..12. |
| `Utils.MonthRangeCovers` | src/modules/utils.js:32-34 | The range holds exactly the dates of the offset month, and spans that month's length. |
| `Utils.MonthRangeAgreesEarlyInMonth` | src/modules/utils.js:29 | On days up to the 28th the code as written gives the intended range. |
| `Utils.MonthRangeOverflow` | src/modules/utils.js:29 | On 31 March 2025 offset -1 gives March as written, February as intended. |

## Left out

- I/O and time:
  - Dexie/IndexedDB persistence, `async`/`await`, Firebase sync, backups, the pages, PDF reports and toasts are all outside the model.
  - Each table is an in-memory value and each query takes its rows as an input sequence.
  - The clock is left out: `createdAt`/`updatedAt` stamps, `Utils.today`, and the start-date default in `comparePayments`, which is a parameter instead.
- Floating point: money is an exact real. IEEE-754 drift, `NaN` from `parseFloat` of a bad string, and `parseFloat`/`parseInt` conversions are not modelled; inputs are numbers already.
- JavaScript dates:
  - UTC-versus-local parsing of `new Date("YYYY-MM-DD")` is not modelled.
  - Dates are year/month/day triples with the month in 1..12, and the operations that count days require that.
  - A four-digit year is assumed, so ISO string comparison is the lexicographic triple order `DateLe`.
  - Formatting of the `YYYY-MM` labels and of the range strings is left out; they are `YearMonth` and `Date` values.
- Presentation: `validateRate`'s message text, the currency and date formatting, and the labels of `BOT_RATES` (its `label` and `description` strings).
- `Interest.CalculateMonthlyPayment`: requires `termMonths > 0`, because the source divides by it. It also requires a non-negative rate, because the form's rate input has `min="0"` (src/pages/debts-page.js:87). The formula itself would still give a positive payment for a monthly rate in (-1, 0), but at -1 it divides by zero. `Math.pow` is an integer power.
- Schedules (the four `Generate*Schedule` methods): `maxMonths` is a `nat` and the start date must have a month in 1..12. The calendar simulators advance a `(year, month)` cursor rather than a day-carrying `Date` (see Findings). The credit-card and daily-accrual methods take their start date as a parameter.
- `Schedules.MonotonicPayoff` and `Schedules.PayoffEntriesNonIncreasing`: stated for the amortization and daily-accrual simulators with a payment beating a month's interest. For the flat-rate simulator the balance can grow, as the source's own comment notes.
- `Comparator.ExtraPaymentSaves`: excludes a credit card whose minimum is ≤ 0 while minimum plus extra is positive. The two runs then follow different payment rules and the savings can be negative (`Comparator.MixedCreditCardModes`).
- Comparator: the daily-accrual branch of the simulator choice is unreachable, because only `credit_card` has the daily-accrual method and it is handled first. The model keeps the branch and proves it is never taken for any other type.
- The debt ledger:
  - `Debts.DebtLedger.Add`: the Dexie key is the next integer, starting at 1.
  - `Debts.DebtLedger.Update`: the `updatedAt` stamp is left out. `parseFloat` of the numeric fields is the identity on numbers.
  - `Debts.DebtLedger.RecordPayment`: the payment amount is a number, not a string to parse. The error's message text is not modelled.
  - `Debts.DebtLedger.Delete`: always succeeds, as the source does for an absent key.
- The debt summaries: `Debts.GetDebtSummary` and `GetTotalDebt` take the list `getAll` returns. Its ordering by name is not modelled because the sums do not depend on it. `debts.getById`, `getPayments` and `getAllPayments` are plain reads.
- `getAll`:
  - it takes the transactions in the order of the ascending `date` index as input, and its tie order for equal dates is Dexie's;
  - search lower-cases ASCII letters only, where JavaScript's `toLowerCase` also folds other scripts;
  - an empty note or category is a string that never matches a non-empty query, like the source's falsy check.
- `getSummary`:
  - a transaction whose type is neither `income` nor `expense` adds its category key but no amount; the source adds `NaN` under a field named after that type;
  - `byCategory` is a `Breakdown` of keys in first-seen order and a map of totals. A JavaScript object lists integer-like keys first, in ascending order, so the two orders agree only when no category name is integer-like.
- `Interest.GetBotConfig`, `Interest.ValidateRate` and `Interest.CalculateMinPayment`: a debt type that names an inherited `Object.prototype` member (`constructor`, `toString`, `__proto__`) finds that member in `BOT_RATES` in the source, not the `personal_loan` fallback. `validateRate` then reports an undefined `maxRate` and `isOverLimit` false, and `calculateMinPayment` returns 0. The model gives such a type the `personal_loan` entry; the debt form offers only `credit_card` and `personal_loan` (src/pages/debts-page.js:61-63).
- `Utils.DebtTypeName` and `Utils.InterestTypeName`: a key that names an `Object.prototype` member, such as `constructor`, returns that member in the source. The model returns the key.
- Transactions `add`/`update`/`delete`, `addCategory` and `deleteCategory` are single database calls with no logic, and are not part of this model.

## Findings

| source | as written | input that shows it | evidently intended | confidence | as-written member | corrected member |
|---|---|---|---|---|---|---|
| src/modules/utils.js:28-31 | `now.setMonth(now.getMonth() + offset)` keeps the day of the month, so when the target month is shorter the date rolls into the month after it | current date 31 March 2025, offset -1: the range is March 2025 (1st to 31st) | the range of February 2025 (1st to 28th) | not executed; medium (the dashboard's "last month" on the 29th-31st) | `Utils.GetMonthRangeAsWritten`, `Utils.MonthRangeOverflow` | `Utils.GetMonthRange`, `Utils.MonthRangeCovers` |
| src/modules/interest.js:224 | the credit-card simulator (and the daily-accrual one, at line 269) advances `currentDate` with `setMonth(getMonth() + 1)`, which keeps the start day, so a start day the next month lacks skips that month | start date 31 January 2025: the second period is billed for March 2025 with 31 days and February is never billed | period k is the k-th month after the start with that month's day count | not executed; medium | `Schedules.BillingDateAsWritten`, `Schedules.BillingSkipsFebruary` | `Calendar.NextMonth`, `Schedules.SimulateCycles` |
