/**
 * Ranking of one round's results: the result slots are sorted in place by
 * descending score and the first slot is the winner. The sort is not stable,
 * so nothing is promised about the order of equal scores.
 */
module Ranking {

  /** One result slot of a round: a candidate tag and its aggregated score. */
  datatype TestResult = TestResult(tag: string, score: real)

  /** Scores never increase from one slot to the next. */
  ghost predicate SortedByScore(rs: seq<TestResult>)
  {
    forall p, q :: 0 <= p < q < |rs| ==> rs[p].score >= rs[q].score
  }

  method Swap(a: array<TestResult>, i: nat, j: nat)
    requires i < a.Length && j < a.Length
    modifies a
    ensures a[..] == old(a[..])[i := old(a[j])][j := old(a[i])]
    ensures multiset(a[..]) == multiset(old(a[..]))
  {
    a[i], a[j] := a[j], a[i];
  }

  /**
   * Sorts the result slots by descending score, the order the comparator
   * `results[i].score > results[j].score` asks of the library sort.
   */
  method SortByScore(a: array<TestResult>)
    modifies a
    ensures SortedByScore(a[..])
    ensures multiset(a[..]) == multiset(old(a[..]))
  {
    for i := 0 to a.Length
      invariant forall p, q :: 0 <= p < q < i ==> a[p].score >= a[q].score
      invariant forall p, q :: 0 <= p < i <= q < a.Length ==> a[p].score >= a[q].score
      invariant multiset(a[..]) == multiset(old(a[..]))
    {
      var best := i;
      for j := i + 1 to a.Length
        invariant i <= best < a.Length
        invariant forall q :: i <= q < j ==> a[q].score <= a[best].score
      {
        if a[j].score > a[best].score {
          best := j;
        }
      }
      Swap(a, i, best);
    }
  }

  /**
   * The slot published after sorting carries a maximal score and is one of
   * the slots the round produced.
   */
  lemma WinnerHasMaximalScore(sorted: seq<TestResult>, slots: seq<TestResult>)
    requires slots != []
    requires multiset(sorted) == multiset(slots)
    requires SortedByScore(sorted)
    ensures sorted != []
    ensures exists k :: 0 <= k < |slots| && slots[k] == sorted[0]
    ensures forall j :: 0 <= j < |slots| ==> slots[j].score <= sorted[0].score
  {
    assert |sorted| == |slots| by {
      assert |multiset(sorted)| == |multiset(slots)|;
    }
    assert sorted[0] in multiset(slots);
    forall j | 0 <= j < |slots|
      ensures slots[j].score <= sorted[0].score
    {
      assert slots[j] in multiset(sorted);
      var p :| 0 <= p < |sorted| && sorted[p] == slots[j];
    }
  }
}
