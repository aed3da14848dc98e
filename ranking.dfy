/**
 * Ranking by remaining money. The source calls `sort_values` with its default
 * quicksort, which is not stable, so the model promises only what any correct
 * sort gives: the result is ordered and is a permutation of its input.
 */
module Ranking {
  import opened Projection

  /** Remaining money never increases along the sequence. */
  predicate NonIncreasing(s: seq<Projected>) {
    forall i, j :: 0 <= i < j < |s| ==> s[i].rec.remainingMoney >= s[j].rec.remainingMoney
  }

  /** Inserts x before the first element with less remaining money. */
  function Insert(x: Projected, s: seq<Projected>): (r: seq<Projected>)
    requires NonIncreasing(s)
    ensures NonIncreasing(r)
    ensures multiset(r) == multiset(s) + multiset{x}
  {
    if s == [] || x.rec.remainingMoney >= s[0].rec.remainingMoney then
      ConsSorted(x, s);
      [x] + s
    else
      var h, t := s[0], s[1..];
      assert s == [h] + t;
      var rest := Insert(x, t);
      HeadIsLargest(s);
      forall y | y in rest ensures h.rec.remainingMoney >= y.rec.remainingMoney {
        assert y in multiset(rest);
        assert y == x || y in t;
      }
      ConsSorted(h, rest);
      [h] + rest
  }

  /** The head of a sorted sequence is no smaller than anything after it. */
  lemma HeadIsLargest(s: seq<Projected>)
    requires NonIncreasing(s) && s != []
    ensures forall y :: y in s[1..] ==> s[0].rec.remainingMoney >= y.rec.remainingMoney
  {
    forall y | y in s[1..] ensures s[0].rec.remainingMoney >= y.rec.remainingMoney {
      var k :| 0 <= k < |s[1..]| && s[1..][k] == y;
      assert s[k + 1] == y;
    }
  }

  /** A head no smaller than every element of a sorted tail keeps the sequence sorted. */
  lemma ConsSorted(h: Projected, t: seq<Projected>)
    requires NonIncreasing(t)
    requires forall y :: y in t ==> h.rec.remainingMoney >= y.rec.remainingMoney
    ensures NonIncreasing([h] + t)
  {
    var s := [h] + t;
    forall i, j | 0 <= i < j < |s| ensures s[i].rec.remainingMoney >= s[j].rec.remainingMoney {
      assert s[j] == t[j - 1];
      if i > 0 {
        assert s[i] == t[i - 1];
      }
    }
  }

  /** `sort_values('remaining_money', ascending=False)`. */
  function SortByRemaining(s: seq<Projected>): (r: seq<Projected>)
    ensures NonIncreasing(r)
    ensures multiset(r) == multiset(s)
  {
    if s == [] then []
    else
      assert s == [s[0]] + s[1..];
      Insert(s[0], SortByRemaining(s[1..]))
  }
}
