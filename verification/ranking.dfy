/**
 * `sorted(xs, key=..., reverse=True)[:n]`: a stable sort into non-increasing
 * order followed by taking the first n. `before(a, b)` says that a may come
 * ahead of b, i.e. a's key is at least b's.
 */
module Ranking {

  ghost predicate IsTotalPreorder<T(!new)>(before: (T, T) -> bool) {
    && (forall a, b :: before(a, b) || before(b, a))
    && (forall a, b, c :: before(a, b) && before(b, c) ==> before(a, c))
  }

  ghost predicate Ranked<T>(s: seq<T>, before: (T, T) -> bool) {
    forall i, j :: 0 <= i < j < |s| ==> before(s[i], s[j])
  }

  /** Places x after every element that may come ahead of it, so that equals keep input order. */
  function Insert<T>(x: T, s: seq<T>, before: (T, T) -> bool): (r: seq<T>)
    ensures |r| == |s| + 1
    ensures multiset(r) == multiset(s) + multiset{x}
  {
    if s == [] then [x]
    else if before(s[0], x) then
      assert s == [s[0]] + s[1..];
      [s[0]] + Insert(x, s[1..], before)
    else [x] + s
  }

  function SortDesc<T>(s: seq<T>, before: (T, T) -> bool): (r: seq<T>)
    ensures |r| == |s|
    ensures multiset(r) == multiset(s)
  {
    if s == [] then []
    else
      assert s == s[..|s| - 1] + [s[|s| - 1]];
      Insert(s[|s| - 1], SortDesc(s[..|s| - 1], before), before)
  }

  lemma {:induction false} InsertRanked<T(!new)>(x: T, s: seq<T>, before: (T, T) -> bool)
    requires IsTotalPreorder(before)
    requires Ranked(s, before)
    ensures Ranked(Insert(x, s, before), before)
  {
    if s != [] {
      if before(s[0], x) {
        var tail := Insert(x, s[1..], before);
        InsertRanked(x, s[1..], before);
        forall j | 0 <= j < |tail| ensures before(s[0], tail[j]) {
          var y := tail[j];
          assert y in multiset(tail);
          if y != x {
            assert y in multiset(s[1..]);
            var m :| 0 <= m < |s[1..]| && s[1..][m] == y;
            assert s[m + 1] == y;
          }
        }
        RankedCons(s[0], tail, before);
      } else {
        assert before(x, s[0]);
        RankedCons(x, s, before);
      }
    }
  }

  lemma RankedCons<T>(h: T, t: seq<T>, before: (T, T) -> bool)
    requires Ranked(t, before)
    requires forall j :: 0 <= j < |t| ==> before(h, t[j])
    ensures Ranked([h] + t, before)
  {
    var r := [h] + t;
    forall i, j | 0 <= i < j < |r| ensures before(r[i], r[j]) {
      if i > 0 {
        assert r[i] == t[i - 1] && r[j] == t[j - 1];
      } else {
        assert r[j] == t[j - 1];
      }
    }
  }

  lemma {:induction false} SortDescRanked<T(!new)>(s: seq<T>, before: (T, T) -> bool)
    requires IsTotalPreorder(before)
    ensures Ranked(SortDesc(s, before), before)
  {
    if s != [] {
      SortDescRanked(s[..|s| - 1], before);
      InsertRanked(s[|s| - 1], SortDesc(s[..|s| - 1], before), before);
    }
  }

  function Min(a: int, b: int): int { if a <= b then a else b }

  /** sorted(s, reverse=True)[:n] */
  function Top<T>(s: seq<T>, n: nat, before: (T, T) -> bool): seq<T> {
    SortDesc(s, before)[..Min(n, |s|)]
  }

  /**
   * The first n in ranking order: as many as there are, up to n; ranked; drawn
   * from s; and nothing left out may come ahead of anything taken.
   */
  lemma TopSpec<T(!new)>(s: seq<T>, n: nat, before: (T, T) -> bool)
    requires IsTotalPreorder(before)
    ensures |Top(s, n, before)| == Min(n, |s|)
    ensures Ranked(Top(s, n, before), before)
    ensures multiset(Top(s, n, before)) <= multiset(s)
    ensures forall x, y :: x in multiset(s) - multiset(Top(s, n, before)) && y in Top(s, n, before) ==> before(y, x)
  {
    var sorted := SortDesc(s, before);
    var k := Min(n, |s|);
    SortDescRanked(s, before);
    assert sorted == sorted[..k] + sorted[k..];
    assert multiset(s) == multiset(sorted[..k]) + multiset(sorted[k..]);
    RankedCut(sorted, k, before);
  }

  /** In a ranked sequence, everything before a cut may come ahead of everything after it. */
  lemma RankedCut<T>(sorted: seq<T>, k: nat, before: (T, T) -> bool)
    requires Ranked(sorted, before) && k <= |sorted|
    ensures forall x, y :: x in multiset(sorted[k..]) && y in sorted[..k] ==> before(y, x)
  {
    forall x, y | x in multiset(sorted[k..]) && y in sorted[..k] ensures before(y, x) {
      var j :| 0 <= j < |sorted[k..]| && sorted[k..][j] == x;
      var i :| 0 <= i < k && sorted[..k][i] == y;
      assert sorted[i] == y && sorted[k + j] == x;
    }
  }
}
