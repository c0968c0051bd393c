/**
 * A Python dict of running sums, `d[k] = d.get(k, 0) + amount`, as both
 * agents.py (`by_category`) and app.py (`merchant_totals`) build it. Python
 * dicts keep insertion order, so the dict is an association list: a key is
 * appended the first time it is seen and updated in place afterwards.
 */
module Tally {
  import opened Records

  type Tally = seq<(string, Money)>

  /** The keys in insertion order. */
  function Keys(t: Tally): (r: seq<string>)
    ensures |r| == |t|
    ensures forall i :: 0 <= i < |t| ==> r[i] == t[i].0
  {
    if t == [] then [] else [t[0].0] + Keys(t[1..])
  }

  ghost predicate DistinctKeys(t: Tally) {
    forall i, j :: 0 <= i < j < |t| ==> t[i].0 != t[j].0
  }

  /** d.get(k, 0) */
  function Get(t: Tally, k: string): Money {
    if t == [] then 0.0 else if t[0].0 == k then t[0].1 else Get(t[1..], k)
  }

  /** sum(d.values()) */
  function Sum(t: Tally): Money {
    if t == [] then 0.0 else t[0].1 + Sum(t[1..])
  }

  /** d[k] = d.get(k, 0) + amount */
  function Bump(t: Tally, k: string, amount: Money): (r: Tally)
    ensures forall k' :: Get(r, k') == Get(t, k') + (if k' == k then amount else 0.0)
    ensures Sum(r) == Sum(t) + amount
  {
    if t == [] then [(k, amount)]
    else if t[0].0 == k then [(k, t[0].1 + amount)] + t[1..]
    else [t[0]] + Bump(t[1..], k, amount)
  }

  /** A key already present keeps its place; a new key is appended at the end. */
  lemma {:induction false} BumpKeys(t: Tally, k: string, amount: Money)
    ensures k in Keys(t) ==> Keys(Bump(t, k, amount)) == Keys(t)
    ensures k !in Keys(t) ==> Keys(Bump(t, k, amount)) == Keys(t) + [k]
  {
    if t != [] && t[0].0 != k {
      BumpKeys(t[1..], k, amount);
      assert Keys(t) == [t[0].0] + Keys(t[1..]);
      assert Keys(Bump(t, k, amount)) == [t[0].0] + Keys(Bump(t[1..], k, amount));
    }
  }

  /** Distinct keys stay distinct. */
  lemma BumpDistinct(t: Tally, k: string, amount: Money)
    requires DistinctKeys(t)
    ensures DistinctKeys(Bump(t, k, amount))
  {
    BumpKeys(t, k, amount);
    var r := Bump(t, k, amount);
    assert Keys(r) == Keys(t) || Keys(r) == Keys(t) + [k];
    forall i, j | 0 <= i < j < |r| ensures r[i].0 != r[j].0 {
      assert Keys(r)[i] == r[i].0 && Keys(r)[j] == r[j].0;
      if j >= |t| {
        assert Keys(t)[i] == t[i].0;
      }
    }
  }

  /** The dict after the loop over xs, each x adding its amount under key(x). */
  function TallyOf(xs: seq<Expense>, key: Expense -> string): Tally {
    if xs == [] then []
    else
      var x := xs[|xs| - 1];
      Bump(TallyOf(xs[..|xs| - 1], key), key(x), AmountOf(x))
  }

  /** Sum of the amounts of the expenses filed under k. */
  function SpentWhere(xs: seq<Expense>, key: Expense -> string, k: string): Money {
    if xs == [] then 0.0
    else
      var x := xs[|xs| - 1];
      SpentWhere(xs[..|xs| - 1], key, k) + (if key(x) == k then AmountOf(x) else 0.0)
  }

  /**
   * Every expense lands under exactly one key, its own: the value under k is the
   * sum of the amounts (a null total counting 0) of the expenses whose key is k.
   */
  lemma {:induction false} TallyGet(xs: seq<Expense>, key: Expense -> string, k: string)
    ensures Get(TallyOf(xs, key), k) == SpentWhere(xs, key, k)
  {
    if xs != [] {
      TallyGet(xs[..|xs| - 1], key, k);
    }
  }

  /** Sum conservation: the values add up to the total of all amounts. */
  lemma {:induction false} TallySum(xs: seq<Expense>, key: Expense -> string)
    ensures Sum(TallyOf(xs, key)) == TotalSpent(xs)
  {
    if xs != [] {
      TallySum(xs[..|xs| - 1], key);
    }
  }

  /** Both facts about the values: each is its key's sum, and together they add up to the total. */
  lemma TallyValues(xs: seq<Expense>, key: Expense -> string)
    ensures Sum(TallyOf(xs, key)) == TotalSpent(xs)
    ensures forall k :: Get(TallyOf(xs, key), k) == SpentWhere(xs, key, k)
  {
    TallySum(xs, key);
    forall k ensures Get(TallyOf(xs, key), k) == SpentWhere(xs, key, k) {
      TallyGet(xs, key, k);
    }
  }

  /** The keys are distinct and exactly the keys of the expenses, so there are at most as many as expenses. */
  lemma TallyKeys(xs: seq<Expense>, key: Expense -> string)
    ensures DistinctKeys(TallyOf(xs, key))
    ensures forall k :: k in Keys(TallyOf(xs, key)) <==> exists i :: 0 <= i < |xs| && key(xs[i]) == k
    ensures |TallyOf(xs, key)| <= |xs|
  {
    TallyDistinct(xs, key);
    TallyKeyMembers(xs, key);
  }

  lemma {:induction false} TallyDistinct(xs: seq<Expense>, key: Expense -> string)
    ensures DistinctKeys(TallyOf(xs, key))
    ensures |TallyOf(xs, key)| <= |xs|
  {
    if xs != [] {
      var init, x := xs[..|xs| - 1], xs[|xs| - 1];
      TallyDistinct(init, key);
      BumpKeys(TallyOf(init, key), key(x), AmountOf(x));
      BumpDistinct(TallyOf(init, key), key(x), AmountOf(x));
    }
  }

  lemma {:induction false} TallyKeyMembers(xs: seq<Expense>, key: Expense -> string)
    ensures forall k :: k in Keys(TallyOf(xs, key)) <==> exists i :: 0 <= i < |xs| && key(xs[i]) == k
  {
    if xs != [] {
      var init, x := xs[..|xs| - 1], xs[|xs| - 1];
      TallyKeyMembers(init, key);
      BumpMembers(TallyOf(init, key), key(x), AmountOf(x));
      forall k ensures SomeKeyed(xs, key, k) <==> SomeKeyed(init, key, k) || k == key(x) {
        if exists i :: 0 <= i < |xs| && key(xs[i]) == k {
          var i :| 0 <= i < |xs| && key(xs[i]) == k;
          if i < |init| {
            assert key(init[i]) == k;
          }
        }
        if exists i :: 0 <= i < |init| && key(init[i]) == k {
          var i :| 0 <= i < |init| && key(init[i]) == k;
          assert key(xs[i]) == k;
        }
      }
    }
  }

  ghost predicate SomeKeyed(xs: seq<Expense>, key: Expense -> string, k: string) {
    exists i :: 0 <= i < |xs| && key(xs[i]) == k
  }

  /** The keys after a bump are the keys before it and the bumped key. */
  lemma BumpMembers(t: Tally, k: string, amount: Money)
    ensures forall k' :: k' in Keys(Bump(t, k, amount)) <==> k' in Keys(t) || k' == k
  {
    BumpKeys(t, k, amount);
  }

  /** Only the keys of the listed expenses matter. */
  lemma {:induction false} TallyCongruent(xs: seq<Expense>, key1: Expense -> string, key2: Expense -> string)
    requires forall i :: 0 <= i < |xs| ==> key1(xs[i]) == key2(xs[i])
    ensures TallyOf(xs, key1) == TallyOf(xs, key2)
  {
    if xs != [] {
      var init := xs[..|xs| - 1];
      assert forall i :: 0 <= i < |init| ==> init[i] == xs[i];
      TallyCongruent(init, key1, key2);
    }
  }
}
