/**
 * The arithmetic app.py does inline while it draws the dashboard: totals with a
 * null total counting 0, the highest receipt, per-merchant sums and the top ten,
 * the fifteen most recent receipts, the budget figures and their alert, the
 * advice status colour, and the per-category rows of the detailed view.
 */
module Dashboard {
  import opened Wrappers
  import opened Records
  import opened Text
  import opened Tally
  import opened Ranking

  // ---------------------------------------------------------------------------
  // Dashboard page

  /** `total_spent / len(expenses)`, shown only when there are expenses. */
  function Average(expenses: seq<Expense>): (r: Money)
    requires |expenses| > 0
    ensures r * (|expenses| as real) == TotalSpent(expenses)
  {
    TotalSpent(expenses) / (|expenses| as real)
  }

  /** `max(e['total'] for e in expenses if e.get('total'))`, None when no total is truthy. */
  function Highest(expenses: seq<Expense>): (r: Option<Money>)
    ensures r.None? <==> forall i :: 0 <= i < |expenses| ==> !HasTruthyTotal(expenses[i])
    ensures r.Some? ==> exists i :: 0 <= i < |expenses| && HasTruthyTotal(expenses[i]) && expenses[i].total.value == r.value
    ensures r.Some? ==> forall i :: 0 <= i < |expenses| && HasTruthyTotal(expenses[i]) ==> expenses[i].total.value <= r.value
  {
    if expenses == [] then None
    else
      var init, e := expenses[..|expenses| - 1], expenses[|expenses| - 1];
      var best := Highest(init);
      assert forall i :: 0 <= i < |init| ==> expenses[i] == init[i];
      if !HasTruthyTotal(e) then best
      else if best.None? || e.total.value > best.value then Some(e.total.value)
      else best
  }

  /** `e.get('merchant', 'Unknown')` */
  function MerchantOf(e: Expense): string {
    e.merchant.GetOr("Unknown")
  }

  function MerchantKey(): Expense -> string {
    e => MerchantOf(e)
  }

  /**
   * The merchant_totals loop: every expense's amount (a null total counting 0)
   * added under its merchant, a missing merchant counting as "Unknown".
   */
  method MerchantTotals(expenses: seq<Expense>) returns (merchantTotals: Tally)
    ensures merchantTotals == TallyOf(expenses, MerchantKey())
    ensures Sum(merchantTotals) == TotalSpent(expenses)
    ensures forall m :: Get(merchantTotals, m) == SpentWhere(expenses, MerchantKey(), m)
    ensures DistinctKeys(merchantTotals)
    ensures |merchantTotals| <= |expenses|
    ensures forall m :: m in Keys(merchantTotals) <==> exists k :: 0 <= k < |expenses| && MerchantOf(expenses[k]) == m
  {
    merchantTotals := [];
    var i := 0;
    while i < |expenses|
      invariant 0 <= i <= |expenses|
      invariant merchantTotals == TallyOf(expenses[..i], MerchantKey())
    {
      var e := expenses[i];
      var merchant := if e.merchant.Some? then e.merchant.value else "Unknown";
      var total := if e.total.Some? then e.total.value else 0.0;
      merchantTotals := Bump(merchantTotals, merchant, total);
      assert expenses[..i + 1][..i] == expenses[..i];
      i := i + 1;
    }
    assert expenses[..i] == expenses;
    TallyValues(expenses, MerchantKey());
    TallyKeys(expenses, MerchantKey());
    forall m ensures m in Keys(merchantTotals) <==> exists k :: 0 <= k < |expenses| && MerchantOf(expenses[k]) == m {
      assert forall k :: 0 <= k < |expenses| ==> MerchantKey()(expenses[k]) == MerchantOf(expenses[k]);
    }
  }

  /** The sort key of `sorted(d.items(), key=lambda x: x[1], reverse=True)`. */
  predicate AmountFirst(a: (string, Money), b: (string, Money)) {
    a.1 >= b.1
  }

  lemma AmountFirstIsTotalPreorder()
    ensures IsTotalPreorder(AmountFirst)
  {
  }

  /**
   * The top-merchants chart: at most ten merchants, largest amount first, drawn
   * from merchant_totals, and no merchant left out has more than one shown.
   */
  function TopMerchants(merchantTotals: Tally): (r: Tally)
    ensures |r| == Min(10, |merchantTotals|)
    ensures forall i, j :: 0 <= i < j < |r| ==> AmountFirst(r[i], r[j])
    ensures multiset(r) <= multiset(merchantTotals)
    ensures forall x, y :: x in multiset(merchantTotals) - multiset(r) && y in r ==> AmountFirst(y, x)
  {
    AmountFirstIsTotalPreorder();
    TopSpec(merchantTotals, 10, AmountFirst);
    Top(merchantTotals, 10, AmountFirst)
  }

  /** `sort_values('Date', ascending=False)`: later dates first, a missing date last. */
  predicate DateFirst(a: Expense, b: Expense) {
    b.date.None? || (a.date.Some? && StrLe(b.date.value, a.date.value))
  }

  lemma DateFirstIsTotalPreorder()
    ensures IsTotalPreorder(DateFirst)
  {
    forall a, b ensures DateFirst(a, b) || DateFirst(b, a) {
      if a.date.Some? && b.date.Some? {
        StrLeTotal(a.date.value, b.date.value);
      }
    }
    forall a, b, c | DateFirst(a, b) && DateFirst(b, c) ensures DateFirst(a, c) {
      if c.date.Some? {
        StrLeTransitive(c.date.value, b.date.value, a.date.value);
      }
    }
  }

  /**
   * The recent-transactions table: at most fifteen receipts, latest date first,
   * drawn from the expenses, and none left out is dated later than one shown.
   */
  function RecentTransactions(expenses: seq<Expense>): (r: seq<Expense>)
    ensures |r| == Min(15, |expenses|)
    ensures forall i, j :: 0 <= i < j < |r| ==> DateFirst(r[i], r[j])
    ensures multiset(r) <= multiset(expenses)
    ensures forall x, y :: x in multiset(expenses) - multiset(r) && y in r ==> DateFirst(y, x)
  {
    DateFirstIsTotalPreorder();
    TopSpec(expenses, 15, DateFirst);
    Top(expenses, 15, DateFirst)
  }

  // ---------------------------------------------------------------------------
  // Budget Tracker page

  /** `monthly_budget - total_spent` */
  function Remaining(budget: Money, spent: Money): (r: Money)
    ensures r > 0.0 <==> spent < budget
    ensures r == 0.0 <==> spent == budget
    ensures spent + r == budget
  {
    budget - spent
  }

  /** `(spent / budget * 100) if budget > 0 else 0` */
  function Progress(budget: Money, spent: Money): (r: real)
    ensures budget > 0.0 ==> r * budget == spent * 100.0
    ensures budget <= 0.0 ==> r == 0.0
  {
    if budget > 0.0 then spent / budget * 100.0 else 0.0
  }

  /** `min(progress / 100, 1.0)`, the value given to the progress bar. */
  function ProgressBar(progress: real): (r: real)
    ensures r <= 1.0
    ensures progress <= 100.0 ==> r * 100.0 == progress
    ensures progress >= 100.0 ==> r == 1.0
  {
    if progress / 100.0 <= 1.0 then progress / 100.0 else 1.0
  }

  datatype BudgetAlert = Exceeded | MostlyUsed | Halfway | WithinBudget

  /** The first band that applies, checked from the top. */
  function AlertFor(progress: real): (r: BudgetAlert)
    ensures r == Exceeded <==> progress >= 100.0
    ensures r == MostlyUsed <==> 80.0 <= progress < 100.0
    ensures r == Halfway <==> 50.0 <= progress < 80.0
    ensures r == WithinBudget <==> progress < 50.0
  {
    if progress >= 100.0 then Exceeded
    else if progress >= 80.0 then MostlyUsed
    else if progress >= 50.0 then Halfway
    else WithinBudget
  }

  function Severity(alert: BudgetAlert): nat {
    match alert
    case WithinBudget => 0
    case Halfway => 1
    case MostlyUsed => 2
    case Exceeded => 3
  }

  /** Under a fixed positive budget, spending more never gives a milder alert. */
  lemma AlertMonotone(budget: Money, spent1: Money, spent2: Money)
    requires budget > 0.0 && spent1 <= spent2
    ensures Severity(AlertFor(Progress(budget, spent1))) <= Severity(AlertFor(Progress(budget, spent2)))
  {
    var p1, p2 := Progress(budget, spent1), Progress(budget, spent2);
    assert p1 * budget <= p2 * budget;
  }

  /** Under a positive budget the budget is exceeded exactly when nothing remains. */
  lemma ExceededIffNothingRemains(budget: Money, spent: Money)
    requires budget > 0.0
    ensures AlertFor(Progress(budget, spent)) == Exceeded <==> Remaining(budget, spent) <= 0.0
  {
    var p := Progress(budget, spent);
    if p >= 100.0 {
      assert p * budget >= 100.0 * budget;
    } else {
      assert p * budget < 100.0 * budget;
    }
  }

  /** With a budget of 0 the progress is 0, so the page reports "within budget" whatever was spent. */
  lemma ZeroBudgetReadsWithin(spent: Money)
    ensures Progress(0.0, spent) == 0.0 && ProgressBar(Progress(0.0, spent)) == 0.0
    ensures AlertFor(Progress(0.0, spent)) == WithinBudget
  {
  }

  // ---------------------------------------------------------------------------
  // AI Insights page

  datatype StatusKind = ErrorStatus | SuccessStatus | InfoStatus

  /** The colour of `advice.get('budget_status', 'N/A')`: "over" wins over "under", any case. */
  function StatusKindOf(status: Option<string>): (r: StatusKind)
    ensures var s := Lower(status.GetOr("N/A"));
      && (r == ErrorStatus <==> Contains(s, "over"))
      && (r == SuccessStatus <==> !Contains(s, "over") && Contains(s, "under"))
      && (r == InfoStatus <==> !Contains(s, "over") && !Contains(s, "under"))
    ensures status.None? ==> r == InfoStatus
  {
    var s := Lower(status.GetOr("N/A"));
    if Contains(s, "over") then ErrorStatus
    else if Contains(s, "under") then SuccessStatus
    else InfoStatus
  }

  /** The classification does not depend on letter case. */
  lemma StatusIgnoresCase(status: string)
    ensures StatusKindOf(Some(Lower(status))) == StatusKindOf(Some(status))
  {
    LowerIdempotent(status);
  }

  // ---------------------------------------------------------------------------
  // Detailed View page

  /** `(amount / total_spent * 100) if total_spent > 0 else 0` */
  function Share(amount: Money, totalSpent: Money): real {
    if totalSpent > 0.0 then amount / totalSpent * 100.0 else 0.0
  }

  /** The number of categorisation entries whose category is c. */
  function ReceiptCount(categorization: Categorization, c: string): (r: nat)
    ensures r == 0 <==> forall img :: img in categorization ==> categorization[img].category != Some(c)
  {
    var named := set img | img in categorization && categorization[img].category == Some(c);
    assert named == {} <==> forall img :: img in categorization ==> categorization[img].category != Some(c) by {
      if img :| img in categorization && categorization[img].category == Some(c) {
        assert img in named;
      }
    }
    |named|
  }

  lemma ReceiptCountBound(categorization: Categorization, c: string)
    ensures ReceiptCount(categorization, c) <= |categorization|
  {
    var named := set img | img in categorization && categorization[img].category == Some(c);
    assert named <= categorization.Keys;
    SubsetCardinality(named, categorization.Keys);
  }

  lemma {:induction false} SubsetCardinality(a: set<string>, b: set<string>)
    requires a <= b
    ensures |a| <= |b|
    decreases |b|
  {
    if a != {} {
      var x :| x in a;
      SubsetCardinality(a - {x}, b - {x});
    }
  }

  datatype CategoryRow = CategoryRow(category: string, amount: Money, percentage: real, receipts: nat)

  function RowFor(entry: (string, Money), totalSpent: Money, categorization: Categorization): CategoryRow {
    CategoryRow(entry.0, entry.1, Share(entry.1, totalSpent), ReceiptCount(categorization, entry.0))
  }

  function SumShares(t: Tally, totalSpent: Money): real {
    if t == [] then 0.0 else Share(t[0].1, totalSpent) + SumShares(t[1..], totalSpent)
  }

  function SumPercentages(rows: seq<CategoryRow>): real {
    if rows == [] then 0.0 else rows[0].percentage + SumPercentages(rows[1..])
  }

  /** The shares of a tally are its sum as a percentage of the total. */
  lemma {:induction false} SumSharesLinear(t: Tally, totalSpent: Money)
    requires totalSpent > 0.0
    ensures SumShares(t, totalSpent) == Sum(t) / totalSpent * 100.0
  {
    if t != [] {
      SumSharesLinear(t[1..], totalSpent);
      var a, rest := t[0].1, Sum(t[1..]);
      assert (a + rest) / totalSpent == a / totalSpent + rest / totalSpent;
    }
  }

  lemma {:induction false} InsertSum(x: (string, Money), s: Tally)
    ensures Sum(Insert(x, s, AmountFirst)) == Sum(s) + x.1
  {
    if s != [] && AmountFirst(s[0], x) {
      InsertSum(x, s[1..]);
    }
  }

  /** Sorting moves amounts around but keeps their sum. */
  lemma {:induction false} SortedSum(t: Tally)
    ensures Sum(SortDesc(t, AmountFirst)) == Sum(t)
  {
    if t != [] {
      var init, x := t[..|t| - 1], t[|t| - 1];
      var sortedInit := SortDesc(init, AmountFirst);
      assert t == init + [x];
      calc {
        Sum(SortDesc(t, AmountFirst));
        Sum(Insert(x, sortedInit, AmountFirst));
        { InsertSum(x, sortedInit); }
        Sum(sortedInit) + x.1;
        { SortedSum(init); }
        Sum(init) + x.1;
        { SumSnoc(init, x); }
        Sum(t);
      }
    }
  }

  lemma {:induction false} SumSnoc(t: Tally, x: (string, Money))
    ensures Sum(t + [x]) == Sum(t) + x.1
  {
    if t != [] {
      assert (t + [x])[1..] == t[1..] + [x];
      SumSnoc(t[1..], x);
    }
  }

  lemma {:induction false} SumPercentagesOfRows(rows: seq<CategoryRow>, t: Tally, totalSpent: Money, categorization: Categorization)
    requires |rows| == |t|
    requires forall i :: 0 <= i < |t| ==> rows[i] == RowFor(t[i], totalSpent, categorization)
    ensures SumPercentages(rows) == SumShares(t, totalSpent)
  {
    if t != [] {
      SumPercentagesOfRows(rows[1..], t[1..], totalSpent, categorization);
    }
  }

  lemma SharesOfWhole(t: Tally, totalSpent: Money)
    requires totalSpent > 0.0 && Sum(t) == totalSpent
    ensures SumShares(t, totalSpent) == 100.0
  {
    SumSharesLinear(t, totalSpent);
    assert Sum(t) / totalSpent == 1.0;
  }

  /** Rows built from the sorted tally come largest amount first. */
  lemma RowsOrdered(rows: seq<CategoryRow>, byCategory: Tally, totalSpent: Money, categorization: Categorization)
    requires |rows| == |byCategory|
    requires forall i :: 0 <= i < |rows| ==> rows[i] == RowFor(SortDesc(byCategory, AmountFirst)[i], totalSpent, categorization)
    ensures forall i, j :: 0 <= i < j < |rows| ==> rows[i].amount >= rows[j].amount
  {
    var sorted := SortDesc(byCategory, AmountFirst);
    AmountFirstIsTotalPreorder();
    SortDescRanked(byCategory, AmountFirst);
    forall i, j | 0 <= i < j < |rows| ensures rows[i].amount >= rows[j].amount {
      assert AmountFirst(sorted[i], sorted[j]);
    }
  }

  /** Their shares add up to 100 when the total is the sum of the amounts. */
  lemma SharesAddUp(rows: seq<CategoryRow>, byCategory: Tally, totalSpent: Money, categorization: Categorization)
    requires totalSpent > 0.0 && Sum(byCategory) == totalSpent
    requires |rows| == |byCategory|
    requires forall i :: 0 <= i < |rows| ==> rows[i] == RowFor(SortDesc(byCategory, AmountFirst)[i], totalSpent, categorization)
    ensures SumPercentages(rows) == 100.0
  {
    var sorted := SortDesc(byCategory, AmountFirst);
    SumPercentagesOfRows(rows, sorted, totalSpent, categorization);
    SortedSum(byCategory);
    SharesOfWhole(sorted, totalSpent);
  }

  /**
   * The category table: one row per by_category entry, largest amount first, each
   * with its share of the total (0 when the total is not positive) and the number
   * of categorisation entries naming it; the shares add up to 100 when the total
   * is the sum of the amounts.
   */
  method CategoryBreakdown(byCategory: Tally, totalSpent: Money, categorization: Categorization)
    returns (rows: seq<CategoryRow>)
    ensures |rows| == |byCategory|
    ensures forall i :: 0 <= i < |rows| ==> rows[i] == RowFor(SortDesc(byCategory, AmountFirst)[i], totalSpent, categorization)
    ensures forall i, j :: 0 <= i < j < |rows| ==> rows[i].amount >= rows[j].amount
    ensures totalSpent <= 0.0 ==> forall i :: 0 <= i < |rows| ==> rows[i].percentage == 0.0
    ensures totalSpent > 0.0 && Sum(byCategory) == totalSpent ==> SumPercentages(rows) == 100.0
  {
    var sorted := SortDesc(byCategory, AmountFirst);
    rows := [];
    var i := 0;
    while i < |sorted|
      invariant 0 <= i <= |sorted|
      invariant |rows| == i
      invariant forall k :: 0 <= k < i ==> rows[k] == RowFor(sorted[k], totalSpent, categorization)
    {
      var category, amount := sorted[i].0, sorted[i].1;
      var percentage := if totalSpent > 0.0 then amount / totalSpent * 100.0 else 0.0;
      rows := rows + [CategoryRow(category, amount, percentage, ReceiptCount(categorization, category))];
      i := i + 1;
    }
    RowsOrdered(rows, byCategory, totalSpent, categorization);
    if totalSpent > 0.0 && Sum(byCategory) == totalSpent {
      SharesAddUp(rows, byCategory, totalSpent, categorization);
    }
  }
}
