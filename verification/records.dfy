/**
 * The expense record that extract_data.py writes to outputs/expenses.json and that
 * run.py, agents.py and app.py read back, together with the one rule all of them
 * share for reading its amount: a null total counts as 0.
 */
module Records {
  import opened Wrappers

  /** Amounts in rupees, exact; the source uses floats. */
  type Money = real

  /** A parsed JSON value. */
  datatype Json =
    | JNull
    | JBool(b: bool)
    | JNum(n: real)
    | JStr(s: string)
    | JArr(elems: seq<Json>)
    | JObj(fields: seq<(string, Json)>)

  /** A parsed JSON object, fields in document order. */
  type JsonObject = seq<(string, Json)>

  /**
   * One stored receipt. `merchant` is None when the key is absent; the other
   * optional fields are None when the stored value is null.
   */
  datatype Expense = Expense(
    id: string,
    imageFile: string,
    merchant: Option<string>,
    date: Option<string>,
    time: Option<string>,
    total: Option<Money>,
    subtotal: Option<Money>,
    tax: Option<Money>,
    items: seq<Json>,
    scannedAt: string)

  /** One categorisation entry produced by the categorising agent. */
  datatype CatEntry = CatEntry(category: Option<string>)

  /** image file name -> categorisation entry */
  type Categorization = map<string, CatEntry>

  /** The amount an expense contributes to every sum: `e.get('total') or 0`. */
  function AmountOf(e: Expense): Money {
    e.total.GetOr(0.0)
  }

  /** Python truthiness of the total: present and non-zero. */
  predicate HasTruthyTotal(e: Expense) {
    e.total.Some? && e.total.value != 0.0
  }

  /** No receipt has a negative total. */
  ghost predicate NoRefunds(es: seq<Expense>) {
    forall i :: 0 <= i < |es| ==> AmountOf(es[i]) >= 0.0
  }

  /** Sum of all amounts, a null total counting 0, in list order. */
  function TotalSpent(es: seq<Expense>): Money {
    if es == [] then 0.0 else TotalSpent(es[..|es| - 1]) + AmountOf(es[|es| - 1])
  }

  /** Without negative totals the sum is not negative, and it is at least any one amount. */
  lemma {:induction false} TotalSpentBounds(es: seq<Expense>)
    requires NoRefunds(es)
    ensures TotalSpent(es) >= 0.0
    ensures forall i :: 0 <= i < |es| ==> AmountOf(es[i]) <= TotalSpent(es)
  {
    if es != [] {
      var init := es[..|es| - 1];
      assert forall i :: 0 <= i < |init| ==> init[i] == es[i];
      TotalSpentBounds(init);
    }
  }

  /** Sum over only the records whose total is truthy. */
  function TruthyTotal(es: seq<Expense>): Money {
    if es == [] then 0.0
    else
      var e := es[|es| - 1];
      TruthyTotal(es[..|es| - 1]) + (if HasTruthyTotal(e) then e.total.value else 0.0)
  }

  /** Summing a concatenation sums the parts. */
  lemma {:induction false} TotalSpentConcat(a: seq<Expense>, b: seq<Expense>)
    ensures TotalSpent(a + b) == TotalSpent(a) + TotalSpent(b)
    decreases |b|
  {
    if b != [] {
      var b' := b[..|b| - 1];
      assert (a + b)[..|a + b| - 1] == a + b';
      TotalSpentConcat(a, b');
    } else {
      assert a + b == a;
    }
  }

  /** Skipping the falsy totals changes nothing: a null or zero total adds 0 either way. */
  lemma {:induction false} TruthyTotalAgrees(es: seq<Expense>)
    ensures TruthyTotal(es) == TotalSpent(es)
  {
    if es != [] {
      TruthyTotalAgrees(es[..|es| - 1]);
    }
  }

  /** Image file names are pairwise distinct. */
  ghost predicate UniqueImages(es: seq<Expense>) {
    forall i, j :: 0 <= i < j < |es| ==> es[i].imageFile != es[j].imageFile
  }
}
