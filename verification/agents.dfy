/**
 * The bookkeeping inside agents.py: the category list, the one-line-per-receipt
 * text of the categorising prompt, and the per-category fold that analyze_task
 * runs before it writes the analysing prompt.
 */
module Agents {
  import opened Wrappers
  import opened Records
  import opened Text
  import opened Tally

  const Categories: seq<string> := [
    "Groceries",
    "Food & Drinks",
    "Snacks",
    "Household Supplies",
    "Toiletries & Personal Care",
    "Electronics",
    "Medical & Pharmacy",
    "Clothing & Apparel",
    "Other"
  ]

  /** The category every uncategorised expense is filed under. */
  const Fallback: string := "Other"

  /** `categorization.get(img, {}).get('category', 'Other')` */
  function CategoryOf(categorization: Categorization, e: Expense): string {
    if e.imageFile in categorization && categorization[e.imageFile].category.Some?
    then categorization[e.imageFile].category.value
    else Fallback
  }

  /**
   * An expense is filed under a category other than "Other" only when its own
   * entry names that category; without an entry or a category it is "Other".
   */
  lemma CategoryOfEntry(categorization: Categorization, e: Expense)
    ensures e.imageFile !in categorization || categorization[e.imageFile].category.None? ==>
      CategoryOf(categorization, e) == Fallback
    ensures CategoryOf(categorization, e) != Fallback ==>
      e.imageFile in categorization && categorization[e.imageFile].category == Some(CategoryOf(categorization, e))
  {
  }

  function CategoryKey(categorization: Categorization): Expense -> string {
    e => CategoryOf(categorization, e)
  }

  /** `f"{e['total']}"`: a null total is written None; `showMoney` stands for Python's float formatting. */
  function ShowTotal(total: Option<Money>, showMoney: Money -> string): string {
    match total
    case None => "None"
    case Some(x) => showMoney(x)
  }

  /** `f"- {e['image_file']}: {e['merchant']}, ₹{e['total']}"` */
  function PromptLine(e: Expense, showMoney: Money -> string): string
    requires e.merchant.Some?
  {
    "- " + e.imageFile + ": " + e.merchant.value + ", \U{20B9}" + ShowTotal(e.total, showMoney)
  }

  /** Some expense lacks the merchant key, so `e['merchant']` raises KeyError. */
  predicate MissingMerchant(es: seq<Expense>) {
    exists i :: 0 <= i < |es| && es[i].merchant.None?
  }

  /**
   * The receipts block of the categorising prompt; None when some expense has no
   * merchant key (the comprehension raises KeyError).
   */
  function ReceiptLines(es: seq<Expense>, showMoney: Money -> string): (r: Option<string>)
    ensures r.None? <==> exists i :: 0 <= i < |es| && es[i].merchant.None?
  {
    if forall i :: 0 <= i < |es| ==> es[i].merchant.Some? then
      Some(Join(seq(|es|, i requires 0 <= i < |es| => PromptLine(es[i], showMoney))))
    else None
  }

  /**
   * The prompt holds exactly one line per expense, in input order, each of the
   * form "- <image_file>: <merchant>, ₹<total>", provided no field holds a line break.
   */
  lemma OneLinePerExpense(es: seq<Expense>, showMoney: Money -> string)
    requires es != []
    requires forall i :: 0 <= i < |es| ==> es[i].merchant.Some?
    requires forall i :: 0 <= i < |es| ==> '\n' !in es[i].imageFile && '\n' !in es[i].merchant.value
    requires forall x :: '\n' !in showMoney(x)
    ensures ReceiptLines(es, showMoney).Some?
    ensures |Split(ReceiptLines(es, showMoney).value)| == |es|
    ensures forall i :: 0 <= i < |es| ==>
      Split(ReceiptLines(es, showMoney).value)[i]
        == "- " + es[i].imageFile + ": " + es[i].merchant.value + ", \U{20B9}" + ShowTotal(es[i].total, showMoney)
  {
    var lines := seq(|es|, i requires 0 <= i < |es| => PromptLine(es[i], showMoney));
    forall i | 0 <= i < |es| ensures '\n' !in lines[i] {
      var e := es[i];
      assert lines[i] == "- " + e.imageFile + ": " + e.merchant.value + ", \U{20B9}" + ShowTotal(e.total, showMoney);
    }
    SplitJoin(lines);
  }

  /**
   * analyze_task's loop: files each expense's amount (a null total counting 0)
   * under its category and adds it to the grand total.
   */
  method AnalyzeTotals(expenses: seq<Expense>, categorization: Categorization)
    returns (byCategory: Tally, totalSpent: Money)
    ensures byCategory == TallyOf(expenses, CategoryKey(categorization))
    ensures totalSpent == TotalSpent(expenses)
    ensures Sum(byCategory) == totalSpent
    ensures forall c :: Get(byCategory, c) == SpentWhere(expenses, CategoryKey(categorization), c)
    ensures DistinctKeys(byCategory)
    ensures expenses == [] ==> byCategory == [] && totalSpent == 0.0
  {
    byCategory := [];
    totalSpent := 0.0;
    var i := 0;
    while i < |expenses|
      invariant 0 <= i <= |expenses|
      invariant byCategory == TallyOf(expenses[..i], CategoryKey(categorization))
      invariant totalSpent == TotalSpent(expenses[..i])
    {
      var e := expenses[i];
      var cat := CategoryOf(categorization, e);
      var expenseTotal := if e.total.None? then 0.0 else e.total.value;
      byCategory := Bump(byCategory, cat, expenseTotal);
      totalSpent := totalSpent + expenseTotal;
      ghost var seen := expenses[..i + 1];
      assert seen[..i] == expenses[..i] && seen[i] == e;
      assert expenseTotal == AmountOf(e) && cat == CategoryKey(categorization)(e);
      assert byCategory == TallyOf(seen, CategoryKey(categorization));
      i := i + 1;
    }
    assert expenses[..i] == expenses;
    TallyValues(expenses, CategoryKey(categorization));
    TallyDistinct(expenses, CategoryKey(categorization));
  }

  /**
   * Only the entries for listed images matter: two categorisations that agree on
   * every image in the expense list give the same sums, whatever else they hold.
   */
  lemma AnalyzeIgnoresUnlistedImages(expenses: seq<Expense>, cat1: Categorization, cat2: Categorization)
    requires forall i :: 0 <= i < |expenses| ==>
      (expenses[i].imageFile in cat1 <==> expenses[i].imageFile in cat2) &&
      (expenses[i].imageFile in cat1 ==> cat1[expenses[i].imageFile] == cat2[expenses[i].imageFile])
    ensures TallyOf(expenses, CategoryKey(cat1)) == TallyOf(expenses, CategoryKey(cat2))
  {
    forall i | 0 <= i < |expenses| ensures CategoryKey(cat1)(expenses[i]) == CategoryKey(cat2)(expenses[i]) {
    }
    TallyCongruent(expenses, CategoryKey(cat1), CategoryKey(cat2));
  }

  /**
   * An expense with no categorisation entry, or whose entry names no category, is
   * filed under "Other", one of the offered categories, which then appears among the keys.
   */
  lemma UncategorisedGoToOther(expenses: seq<Expense>, categorization: Categorization, i: nat)
    requires i < |expenses|
    requires expenses[i].imageFile !in categorization || categorization[expenses[i].imageFile].category.None?
    ensures CategoryKey(categorization)(expenses[i]) == "Other" && "Other" in Categories
    ensures "Other" in Keys(TallyOf(expenses, CategoryKey(categorization)))
  {
    TallyKeys(expenses, CategoryKey(categorization));
  }
}
