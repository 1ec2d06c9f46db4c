/**
 * `TransactionModule`: the filters of `getAll`, the totals and per-category
 * breakdown of `getSummary`, the whole-month range of `getMonthlySummary`
 * and the type filter of `getCategories`. The `transactions` and
 * `categories` tables are passed in as sequences.
 */
module Transactions {
  import opened Results
  import opened Money
  import opened Lists
  import opened Calendar

  /** A stored transaction; `txType` is `income` or `expense` in practice, but any string is stored. */
  datatype Transaction = Transaction(id: nat, date: Date, txType: string, category: string, amount: real, note: string)

  /** The filters of `getAll`; an empty string or a missing date means the filter is not set. */
  datatype Filters = Filters(txType: string, category: string, startDate: Option<Date>, endDate: Option<Date>, search: string)

  datatype Category = Category(id: nat, name: string, catType: string, icon: string)

  // ---------------------------------------------------------------------
  // Case-insensitive search

  /** `toLowerCase` on the ASCII letters; every other character is left alone. */
  function LowerChar(c: char): char {
    if 'A' <= c <= 'Z' then (c as int + 32) as char else c
  }

  function ToLower(s: string): (r: string)
    ensures |r| == |s|
    ensures forall i :: 0 <= i < |s| ==> r[i] == LowerChar(s[i])
  {
    seq(|s|, i requires 0 <= i < |s| => LowerChar(s[i]))
  }

  lemma ToLowerIdempotent(s: string)
    ensures ToLower(ToLower(s)) == ToLower(s)
  {
    var once := ToLower(s);
    forall i | 0 <= i < |s|
      ensures ToLower(once)[i] == once[i]
    {
      assert !('A' <= once[i] <= 'Z');
    }
  }

  /** `hay.includes(needle)`, found by trying each starting position in turn. */
  predicate Contains(hay: string, needle: string)
    decreases |hay|
  {
    (|needle| <= |hay| && hay[..|needle|] == needle) || (|hay| > 0 && Contains(hay[1..], needle))
  }

  predicate OccursAt(hay: string, needle: string, i: int) {
    0 <= i <= |hay| - |needle| && hay[i..i + |needle|] == needle
  }

  /** `Contains` holds exactly when the needle occurs at some position of the haystack. */
  lemma {:induction false} ContainsIff(hay: string, needle: string)
    ensures Contains(hay, needle) <==> exists i :: OccursAt(hay, needle, i)
    decreases |hay|
  {
    if |hay| > 0 {
      ContainsIff(hay[1..], needle);
      if Contains(hay[1..], needle) {
        var i :| OccursAt(hay[1..], needle, i);
        assert hay[i + 1..i + 1 + |needle|] == hay[1..][i..i + |needle|];
        assert OccursAt(hay, needle, i + 1);
      }
      if exists i :: OccursAt(hay, needle, i) {
        var i :| OccursAt(hay, needle, i);
        if i > 0 {
          assert hay[1..][i - 1..i - 1 + |needle|] == hay[i..i + |needle|];
          assert OccursAt(hay[1..], needle, i - 1);
        }
      }
    }
    if |needle| <= |hay| && hay[..|needle|] == needle {
      assert OccursAt(hay, needle, 0);
    }
    if |hay| == 0 && exists i :: OccursAt(hay, needle, i) {
      var i :| OccursAt(hay, needle, i);
      assert hay[..|needle|] == needle;
    }
  }

  /** The search filter: the lower-cased query occurs in the non-empty note or category, lower-cased. */
  predicate SearchHit(t: Transaction, query: string) {
    (t.note != "" && Contains(ToLower(t.note), query))
    || (t.category != "" && Contains(ToLower(t.category), query))
  }

  // ---------------------------------------------------------------------
  // getAll

  /** A transaction passes every filter that is set. */
  predicate Matches(f: Filters, t: Transaction) {
    && (f.txType == "" || t.txType == f.txType)
    && (f.category == "" || t.category == f.category)
    && (f.startDate.None? || DateLe(f.startDate.value, t.date))
    && (f.endDate.None? || DateLe(t.date, f.endDate.value))
    && (f.search == "" || SearchHit(t, ToLower(f.search)))
  }

  predicate DateAscending(s: seq<Transaction>) {
    forall i, j :: 0 <= i < j < |s| ==> DateLe(s[i].date, s[j].date)
  }

  predicate DateDescending(s: seq<Transaction>) {
    forall i, j :: 0 <= i < j < |s| ==> DateLe(s[j].date, s[i].date)
  }

  function HasType(txType: string): Transaction -> bool {
    (t: Transaction) => t.txType == txType
  }

  function HasCategory(category: string): Transaction -> bool {
    (t: Transaction) => t.category == category
  }

  /** The lower bound of a date window; no bound accepts everything. */
  function StartBound(startDate: Option<Date>): Transaction -> bool {
    (t: Transaction) => startDate.None? || DateLe(startDate.value, t.date)
  }

  /** The upper bound of a date window; no bound accepts everything. */
  function EndBound(endDate: Option<Date>): Transaction -> bool {
    (t: Transaction) => endDate.None? || DateLe(t.date, endDate.value)
  }

  function Mentions(query: string): Transaction -> bool {
    (t: Transaction) => SearchHit(t, query)
  }

  /** Keep what `p` accepts when the filter is set, everything otherwise. */
  function FilterIf(active: bool, s: seq<Transaction>, p: Transaction -> bool): (r: seq<Transaction>)
    ensures |r| <= |s| && multiset(r) <= multiset(s)
  {
    if active then Filter(s, p) else s
  }

  /**
   * `getAll`: the date index read in reverse, then each filter that is set
   * applied in turn. `byDate` is the table in date-index order.
   */
  function GetAll(byDate: seq<Transaction>, f: Filters): (r: seq<Transaction>)
    ensures |r| <= |byDate| && multiset(r) <= multiset(byDate)
  {
    var newestFirst := Reverse(byDate);
    var ofType := FilterIf(f.txType != "", newestFirst, HasType(f.txType));
    var ofCategory := FilterIf(f.category != "", ofType, HasCategory(f.category));
    var fromStart := FilterIf(f.startDate.Some?, ofCategory, StartBound(f.startDate));
    var toEnd := FilterIf(f.endDate.Some?, fromStart, EndBound(f.endDate));
    FilterIf(f.search != "", toEnd, Mentions(ToLower(f.search)))
  }

  const NoFilters := Filters("", "", None, None, "")

  /** One filter stage keeps every copy of what it accepts and none of what it rejects. */
  lemma FilterIfExact(active: bool, s: seq<Transaction>, p: Transaction -> bool, t: Transaction)
    ensures multiset(FilterIf(active, s, p))[t] == if !active || p(t) then multiset(s)[t] else 0
  {
    if active {
      FilterMultiset(s, p, t);
    }
  }

  /** One filter stage keeps the newest-first order. */
  lemma FilterIfOrder(active: bool, s: seq<Transaction>, p: Transaction -> bool)
    requires DateDescending(s)
    ensures DateDescending(FilterIf(active, s, p))
  {
    if active {
      var later := (a: Transaction, b: Transaction) => DateLe(b.date, a.date);
      FilterKeepsOrder(s, p, later);
      var r := Filter(s, p);
      assert forall i, j :: 0 <= i < j < |r| ==> later(r[i], r[j]);
    }
  }

  /**
   * `getAll` returns every copy of a transaction that passes every filter
   * that is set, and no copy of one that fails a filter.
   */
  lemma GetAllCount(byDate: seq<Transaction>, f: Filters, t: Transaction)
    ensures multiset(GetAll(byDate, f))[t] == if Matches(f, t) then multiset(byDate)[t] else 0
  {
    var newestFirst := Reverse(byDate);
    var ofType := FilterIf(f.txType != "", newestFirst, HasType(f.txType));
    var ofCategory := FilterIf(f.category != "", ofType, HasCategory(f.category));
    var fromStart := FilterIf(f.startDate.Some?, ofCategory, StartBound(f.startDate));
    var toEnd := FilterIf(f.endDate.Some?, fromStart, EndBound(f.endDate));
    FilterIfExact(f.txType != "", newestFirst, HasType(f.txType), t);
    FilterIfExact(f.category != "", ofType, HasCategory(f.category), t);
    FilterIfExact(f.startDate.Some?, ofCategory, StartBound(f.startDate), t);
    FilterIfExact(f.endDate.Some?, fromStart, EndBound(f.endDate), t);
    FilterIfExact(f.search != "", toEnd, Mentions(ToLower(f.search)), t);
  }

  /** So a transaction is listed exactly when it is stored and passes every filter that is set. */
  lemma GetAllMembers(byDate: seq<Transaction>, f: Filters)
    ensures forall t :: t in GetAll(byDate, f) <==> t in byDate && Matches(f, t)
  {
    forall t
      ensures t in GetAll(byDate, f) <==> t in byDate && Matches(f, t)
    {
      GetAllCount(byDate, f, t);
      assert t in GetAll(byDate, f) <==> multiset(GetAll(byDate, f))[t] > 0;
      assert t in byDate <==> multiset(byDate)[t] > 0;
    }
  }

  /** Read from an index in ascending date order, `getAll` lists newest first; with no filter set it lists everything. */
  lemma GetAllOrder(byDate: seq<Transaction>, f: Filters)
    requires DateAscending(byDate)
    ensures DateDescending(GetAll(byDate, f))
    ensures GetAll(byDate, NoFilters) == Reverse(byDate)
  {
    var newestFirst := Reverse(byDate);
    assert DateDescending(newestFirst) by {
      forall i, j | 0 <= i < j < |newestFirst|
        ensures DateLe(newestFirst[j].date, newestFirst[i].date)
      {
        assert newestFirst[i] == byDate[|byDate| - 1 - i] && newestFirst[j] == byDate[|byDate| - 1 - j];
      }
    }
    var ofType := FilterIf(f.txType != "", newestFirst, HasType(f.txType));
    var ofCategory := FilterIf(f.category != "", ofType, HasCategory(f.category));
    var fromStart := FilterIf(f.startDate.Some?, ofCategory, StartBound(f.startDate));
    var toEnd := FilterIf(f.endDate.Some?, fromStart, EndBound(f.endDate));
    FilterIfOrder(f.txType != "", newestFirst, HasType(f.txType));
    FilterIfOrder(f.category != "", ofType, HasCategory(f.category));
    FilterIfOrder(f.startDate.Some?, ofCategory, StartBound(f.startDate));
    FilterIfOrder(f.endDate.Some?, fromStart, EndBound(f.endDate));
    FilterIfOrder(f.search != "", toEnd, Mentions(ToLower(f.search)));
  }

  // ---------------------------------------------------------------------
  // getSummary

  predicate IsIncome(t: Transaction) {
    t.txType == "income"
  }

  predicate IsExpense(t: Transaction) {
    t.txType == "expense"
  }

  function Amount(t: Transaction): real {
    t.amount
  }

  /** The inclusive date window of `getSummary`; a missing bound is not applied. */
  function InRange(txns: seq<Transaction>, startDate: Option<Date>, endDate: Option<Date>): seq<Transaction> {
    var fromStart := FilterIf(startDate.Some?, txns, StartBound(startDate));
    FilterIf(endDate.Some?, fromStart, EndBound(endDate))
  }

  predicate InWindow(t: Transaction, startDate: Option<Date>, endDate: Option<Date>) {
    (startDate.None? || DateLe(startDate.value, t.date)) && (endDate.None? || DateLe(t.date, endDate.value))
  }

  /** The window keeps every copy of a transaction inside it and none outside. */
  lemma InRangeExact(txns: seq<Transaction>, startDate: Option<Date>, endDate: Option<Date>, t: Transaction)
    ensures multiset(InRange(txns, startDate, endDate))[t] == if InWindow(t, startDate, endDate) then multiset(txns)[t] else 0
  {
    FilterIfExact(startDate.Some?, txns, StartBound(startDate), t);
    FilterIfExact(endDate.Some?, FilterIf(startDate.Some?, txns, StartBound(startDate)), EndBound(endDate), t);
  }

  datatype CategoryTotals = CategoryTotals(income: real, expense: real)

  /**
   * `byCategory`: its keys in first-seen order and their totals. This is a JavaScript
   * object's key order only when no key is integer-like; those are listed first, ascending.
   */
  datatype Breakdown = Breakdown(keys: seq<string>, totals: map<string, CategoryTotals>)

  /** The first half of a `forEach` step: create the category's entry, at zero, when it is absent. */
  function Enter(b: Breakdown, c: string): (r: Breakdown)
    ensures c in r.totals
  {
    if c in b.totals then b else Breakdown(b.keys + [c], b.totals[c := CategoryTotals(0.0, 0.0)])
  }

  /** The second half: add the amount under the transaction's type; other types add nothing. */
  function AddAmount(b: Breakdown, t: Transaction): Breakdown
    requires t.category in b.totals
  {
    var c := t.category;
    var cur := b.totals[c];
    if IsIncome(t) then b.(totals := b.totals[c := cur.(income := cur.income + t.amount)])
    else if IsExpense(t) then b.(totals := b.totals[c := cur.(expense := cur.expense + t.amount)])
    else b
  }

  /** One step of the `forEach`. */
  function Tally(b: Breakdown, t: Transaction): Breakdown {
    AddAmount(Enter(b, t.category), t)
  }

  /** The breakdown after the `forEach` over `txns`. */
  function BreakdownOf(txns: seq<Transaction>): (b: Breakdown)
    ensures WellFormed(b)
    decreases |txns|
  {
    if txns == [] then Breakdown([], map[])
    else
      var prior := BreakdownOf(txns[..|txns| - 1]);
      TallyWellFormed(prior, txns[|txns| - 1]);
      Tally(prior, txns[|txns| - 1])
  }

  /** The `forEach` that builds `byCategory` in place. */
  method ByCategory(txns: seq<Transaction>) returns (b: Breakdown)
    ensures b == BreakdownOf(txns)
  {
    var keys: seq<string> := [];
    var totals: map<string, CategoryTotals> := map[];
    for i := 0 to |txns|
      invariant Breakdown(keys, totals) == BreakdownOf(txns[..i])
    {
      keys, totals := TallyStep(keys, totals, txns[i]);
      BreakdownOfSnoc(txns, i);
    }
    assert txns[..|txns|] == txns;
    b := Breakdown(keys, totals);
  }

  /** The `forEach` callback: enter the category if it is new, then add the amount under the type. */
  method TallyStep(keys: seq<string>, totals: map<string, CategoryTotals>, t: Transaction)
    returns (keys': seq<string>, totals': map<string, CategoryTotals>)
    ensures Breakdown(keys', totals') == Tally(Breakdown(keys, totals), t)
  {
    var c := t.category;
    keys', totals' := keys, totals;
    if c !in totals' {
      keys' := keys' + [c];
      totals' := totals'[c := CategoryTotals(0.0, 0.0)];
    }
    assert Breakdown(keys', totals') == Enter(Breakdown(keys, totals), c);
    var cur := totals'[c];
    if t.txType == "income" {
      totals' := totals'[c := cur.(income := cur.income + t.amount)];
    } else if t.txType == "expense" {
      totals' := totals'[c := cur.(expense := cur.expense + t.amount)];
    }
  }

  /** One more transaction is one more `Tally`. */
  lemma BreakdownOfSnoc(txns: seq<Transaction>, i: nat)
    requires i < |txns|
    ensures BreakdownOf(txns[..i + 1]) == Tally(BreakdownOf(txns[..i]), txns[i])
  {
    assert txns[..i + 1][..i] == txns[..i];
  }

  datatype Summary = Summary(income: real, expense: real, balance: real, byCategory: Breakdown, count: nat)

  /** The figures `getSummary` reports for the transactions in its window. */
  function SummaryOf(txns: seq<Transaction>): (s: Summary)
    ensures s.balance == s.income - s.expense
    ensures s.count == |txns|
    ensures s.income == Sum(Filter(txns, IsIncome), Amount) && s.expense == Sum(Filter(txns, IsExpense), Amount)
  {
    var income := Sum(Filter(txns, IsIncome), Amount);
    var expense := Sum(Filter(txns, IsExpense), Amount);
    Summary(income, expense, income - expense, BreakdownOf(txns), |txns|)
  }

  /** `getSummary(startDate, endDate)` over the whole table `all`. */
  method GetSummary(all: seq<Transaction>, startDate: Option<Date>, endDate: Option<Date>) returns (s: Summary)
    ensures s == SummaryOf(InRange(all, startDate, endDate))
  {
    var txns := InRange(all, startDate, endDate);
    var income := Sum(Filter(txns, IsIncome), Amount);
    var expense := Sum(Filter(txns, IsExpense), Amount);
    var byCategory := ByCategory(txns);
    s := Summary(income, expense, income - expense, byCategory, |txns|);
  }

  /** `getMonthlySummary(year, month)`: the window from the month's first day to its last. */
  method GetMonthlySummary(all: seq<Transaction>, year: int, month: int) returns (s: Summary)
    requires 1 <= month <= 12
    ensures s == SummaryOf(InRange(all, Some(FirstDay(YearMonth(year, month))), Some(LastDay(YearMonth(year, month)))))
  {
    var c := YearMonth(year, month);
    s := GetSummary(all, Some(FirstDay(c)), Some(LastDay(c)));
  }

  /** The monthly window holds exactly the table's transactions dated in that month. */
  lemma MonthlyWindow(all: seq<Transaction>, year: int, month: int, t: Transaction)
    requires 1 <= month <= 12 && ValidDate(t.date)
    ensures var c := YearMonth(year, month);
      multiset(InRange(all, Some(FirstDay(c)), Some(LastDay(c))))[t]
        == if MonthOf(t.date) == c then multiset(all)[t] else 0
  {
    var c := YearMonth(year, month);
    InRangeExact(all, Some(FirstDay(c)), Some(LastDay(c)), t);
    InMonthRange(c, t.date);
  }

  // ---------------------------------------------------------------------
  // Properties of the breakdown

  /** The keys are distinct and are exactly the categories with an entry. */
  ghost predicate WellFormed(b: Breakdown) {
    && (forall i, j :: 0 <= i < j < |b.keys| ==> b.keys[i] != b.keys[j])
    && (forall k :: k in b.keys <==> k in b.totals)
  }

  function Part(v: CategoryTotals, income: bool): real {
    if income then v.income else v.expense
  }

  /** The income (or expense) totals of the listed categories, added up. */
  function SumOver(keys: seq<string>, totals: map<string, CategoryTotals>, income: bool): real
    requires forall k :: k in keys ==> k in totals
    decreases |keys|
  {
    if keys == [] then 0.0
    else SumOver(keys[..|keys| - 1], totals, income) + Part(totals[keys[|keys| - 1]], income)
  }

  /** Changing the entry of a category that is not listed changes nothing. */
  lemma {:induction false} SumOverFrame(keys: seq<string>, totals: map<string, CategoryTotals>, c: string,
                                        v: CategoryTotals, income: bool)
    requires forall k :: k in keys ==> k in totals
    requires c !in keys
    ensures SumOver(keys, totals[c := v], income) == SumOver(keys, totals, income)
    decreases |keys|
  {
    if keys != [] {
      SumOverFrame(keys[..|keys| - 1], totals, c, v, income);
    }
  }

  /** Changing the entry of a category listed once changes the sum by the change in that entry. */
  lemma {:induction false} SumOverUpdate(keys: seq<string>, totals: map<string, CategoryTotals>, c: string,
                                         v: CategoryTotals, income: bool)
    requires forall k :: k in keys ==> k in totals
    requires forall i, j :: 0 <= i < j < |keys| ==> keys[i] != keys[j]
    requires c in keys
    ensures SumOver(keys, totals[c := v], income) == SumOver(keys, totals, income) + Part(v, income) - Part(totals[c], income)
    decreases |keys|
  {
    var init, last := keys[..|keys| - 1], keys[|keys| - 1];
    if last == c {
      assert c !in init by {
        forall i | 0 <= i < |init|
          ensures init[i] != c
        {
          assert keys[i] != keys[|keys| - 1];
        }
      }
      SumOverFrame(init, totals, c, v, income);
    } else {
      assert c in init by {
        var i :| 0 <= i < |keys| && keys[i] == c;
        assert i < |keys| - 1;
        assert init[i] == c;
      }
      SumOverUpdate(init, totals, c, v, income);
    }
  }

  /** Sum of the last element's amount joins the sum of the rest. */
  lemma SumSnoc(s: seq<Transaction>, p: Transaction -> bool)
    requires s != []
    ensures Sum(Filter(s, p), Amount)
         == Sum(Filter(s[..|s| - 1], p), Amount) + (if p(s[|s| - 1]) then s[|s| - 1].amount else 0.0)
  {
    var init, last := s[..|s| - 1], s[|s| - 1];
    if p(last) {
      assert Filter(s, p) == Filter(init, p) + [last];
      assert (Filter(init, p) + [last])[..|Filter(init, p)|] == Filter(init, p);
    }
  }

  /** One step keeps the breakdown well formed and adds the transaction's category. */
  lemma TallyWellFormed(b: Breakdown, t: Transaction)
    requires WellFormed(b)
    ensures WellFormed(Tally(b, t))
    ensures forall k :: k in Tally(b, t).totals <==> k in b.totals || k == t.category
  {
    var c := t.category;
    if c !in b.totals {
      var keys := b.keys + [c];
      forall i, j | 0 <= i < j < |keys|
        ensures keys[i] != keys[j]
      {
        if j == |keys| - 1 {
          assert keys[i] in b.keys;
        }
      }
    }
  }

  /** A new category enters with zero totals, which leaves the column sums as they were. */
  lemma AddKey(b: Breakdown, c: string, income: bool)
    requires WellFormed(b) && c !in b.totals
    ensures var b1 := Breakdown(b.keys + [c], b.totals[c := CategoryTotals(0.0, 0.0)]);
      WellFormed(b1) && SumOver(b1.keys, b1.totals, income) == SumOver(b.keys, b.totals, income)
  {
    var b1 := Breakdown(b.keys + [c], b.totals[c := CategoryTotals(0.0, 0.0)]);
    forall i, j | 0 <= i < j < |b1.keys|
      ensures b1.keys[i] != b1.keys[j]
    {
      if j == |b1.keys| - 1 {
        assert b1.keys[i] in b.keys;
      }
    }
    SumOverFrame(b.keys, b.totals, c, CategoryTotals(0.0, 0.0), income);
    assert b1.keys[..|b.keys|] == b.keys;
  }

  /** A step on a category that already has an entry changes that entry only. */
  lemma TallyExisting(b: Breakdown, t: Transaction, income: bool)
    requires WellFormed(b) && t.category in b.totals
    ensures Tally(b, t).keys == b.keys && Tally(b, t).totals.Keys == b.totals.Keys
    ensures SumOver(Tally(b, t).keys, Tally(b, t).totals, income)
         == SumOver(b.keys, b.totals, income) + (if (income && IsIncome(t)) || (!income && IsExpense(t)) then t.amount else 0.0)
  {
    var c := t.category;
    var cur := b.totals[c];
    if IsIncome(t) {
      var v := cur.(income := cur.income + t.amount);
      assert Tally(b, t) == Breakdown(b.keys, b.totals[c := v]);
      SumOverUpdate(b.keys, b.totals, c, v, income);
    } else if IsExpense(t) {
      var v := cur.(expense := cur.expense + t.amount);
      assert Tally(b, t) == Breakdown(b.keys, b.totals[c := v]);
      SumOverUpdate(b.keys, b.totals, c, v, income);
    }
  }

  /** One step adds the amount to the income column of an income transaction, the expense column of an expense. */
  lemma TallySum(b: Breakdown, t: Transaction, income: bool)
    requires WellFormed(b)
    ensures forall k :: k in Tally(b, t).keys ==> k in Tally(b, t).totals
    ensures SumOver(Tally(b, t).keys, Tally(b, t).totals, income)
         == SumOver(b.keys, b.totals, income) + (if (income && IsIncome(t)) || (!income && IsExpense(t)) then t.amount else 0.0)
  {
    TallyWellFormed(b, t);
    if t.category in b.totals {
      TallyExisting(b, t, income);
    } else {
      TallyNew(b, t, income);
    }
  }

  /** A transaction of a new category: the category enters with zero totals, then the amount is added. */
  lemma TallyNew(b: Breakdown, t: Transaction, income: bool)
    requires WellFormed(b) && t.category !in b.totals
    ensures forall k :: k in Tally(b, t).keys ==> k in Tally(b, t).totals
    ensures SumOver(Tally(b, t).keys, Tally(b, t).totals, income)
         == SumOver(b.keys, b.totals, income) + (if (income && IsIncome(t)) || (!income && IsExpense(t)) then t.amount else 0.0)
  {
    var c := t.category;
    var b1 := Breakdown(b.keys + [c], b.totals[c := CategoryTotals(0.0, 0.0)]);
    assert Enter(b, c) == b1 && Enter(b1, c) == b1;
    AddKey(b, c, income);
    TallyExisting(b1, t, income);
  }

  /** The breakdown is well formed and has an entry exactly for the categories that occur. */
  lemma {:induction false} BreakdownKeys(txns: seq<Transaction>)
    ensures WellFormed(BreakdownOf(txns))
    ensures forall k :: k in BreakdownOf(txns).totals <==> exists i :: 0 <= i < |txns| && txns[i].category == k
    decreases |txns|
  {
    if txns != [] {
      var init, t := txns[..|txns| - 1], txns[|txns| - 1];
      BreakdownKeys(init);
      TallyWellFormed(BreakdownOf(init), t);
      forall k
        ensures k in BreakdownOf(txns).totals <==> exists i :: 0 <= i < |txns| && txns[i].category == k
      {
        if exists i :: 0 <= i < |init| && init[i].category == k {
          var i :| 0 <= i < |init| && init[i].category == k;
          assert txns[i].category == k;
        }
        if exists i :: 0 <= i < |txns| && txns[i].category == k {
          var i :| 0 <= i < |txns| && txns[i].category == k;
          if i < |init| {
            assert init[i].category == k;
          }
        }
      }
    }
  }

  /** The transactions that go in one column: income, or expense. */
  function ColumnOf(income: bool): Transaction -> bool {
    if income then IsIncome else IsExpense
  }

  /**
   * Each column of the breakdown adds up to the summary's figure for it:
   * the income column to `income`, the expense column to `expense`
   * (transactions of any other type are in neither).
   */
  lemma {:induction false} BreakdownColumn(txns: seq<Transaction>, income: bool)
    ensures var b := BreakdownOf(txns);
      SumOver(b.keys, b.totals, income) == Sum(Filter(txns, ColumnOf(income)), Amount)
    decreases |txns|
  {
    if txns != [] {
      var init, t := txns[..|txns| - 1], txns[|txns| - 1];
      BreakdownColumn(init, income);
      TallySum(BreakdownOf(init), t, income);
      SumSnoc(txns, ColumnOf(income));
    }
  }

  lemma BreakdownTotals(txns: seq<Transaction>)
    ensures var s := SummaryOf(txns);
      && SumOver(s.byCategory.keys, s.byCategory.totals, true) == s.income
      && SumOver(s.byCategory.keys, s.byCategory.totals, false) == s.expense
  {
    BreakdownColumn(txns, true);
    BreakdownColumn(txns, false);
    assert ColumnOf(true) == IsIncome && ColumnOf(false) == IsExpense;
  }

  // ---------------------------------------------------------------------
  // getCategories

  /** `getCategories(type)`: the categories of that type, or all of them when no type is given. */
  function GetCategories(cats: seq<Category>, catType: string): (r: seq<Category>)
    ensures catType == "" ==> r == cats
    ensures forall c :: c in r <==> c in cats && (catType == "" || c.catType == catType)
  {
    if catType != "" then
      var r := Filter(cats, (c: Category) => c.catType == catType);
      assert forall c :: c in r ==> c in cats && c.catType == catType by {
        forall c | c in r
          ensures c in cats && c.catType == catType
        {
          var i :| 0 <= i < |r| && r[i] == c;
        }
      }
      assert forall c :: c in cats && c.catType == catType ==> c in r by {
        forall c | c in cats && c.catType == catType
          ensures c in r
        {
          var i :| 0 <= i < |cats| && cats[i] == c;
        }
      }
      r
    else cats
  }
}
