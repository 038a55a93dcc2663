/**
 * Scoring of one candidate outbound: each trial yields a score (0 when the
 * probe request fails) and the trial scores of a round are reduced to one
 * number by a trimmed mean that drops one lowest and one highest score when
 * there are at least three trials.
 */
module Scoring {

  /** What one probe request through a candidate observed. */
  datatype Trial =
    | Failed                 // the request returned an error (network error, timeout)
    | Measured(speed: real)  // bytes (or the nominal 100) per elapsed second

  function TrialScore(t: Trial): (r: real)
    ensures t.Failed? ==> r == 0.0
  {
    match t
    case Failed => 0.0
    case Measured(speed) => speed
  }

  /** Sum of the scores, accumulated from the front as the aggregation loop does. */
  function Sum(s: seq<real>): (r: real)
    ensures s == [] ==> r == 0.0
  {
    if s == [] then 0.0 else Sum(s[..|s| - 1]) + s[|s| - 1]
  }

  /** Smallest score, updated element by element with a strict `<` as the loop does. */
  function Min(s: seq<real>): (m: real)
    requires s != []
    ensures m in s
    ensures forall i :: 0 <= i < |s| ==> m <= s[i]
  {
    if |s| == 1 then s[0]
    else
      var m := Min(s[..|s| - 1]);
      if s[|s| - 1] < m then s[|s| - 1] else m
  }

  /** Largest score, updated element by element with a strict `>` as the loop does. */
  function Max(s: seq<real>): (m: real)
    requires s != []
    ensures m in s
    ensures forall i :: 0 <= i < |s| ==> s[i] <= m
  {
    if |s| == 1 then s[0]
    else
      var m := Max(s[..|s| - 1]);
      if s[|s| - 1] > m then s[|s| - 1] else m
  }

  /** The candidate score of a round: a plain mean below three trials, else the trimmed mean. */
  function TrimmedMean(s: seq<real>): (r: real)
    requires s != []
    ensures |s| < 3 ==> r == Mean(s)
  {
    if |s| < 3 then Sum(s) / |s| as real
    else (Sum(s) - Min(s) - Max(s)) / (|s| - 2) as real
  }

  /** The arithmetic mean, the reference the trimmed mean is compared with. */
  function Mean(s: seq<real>): real
    requires s != []
  {
    Sum(s) / |s| as real
  }

  function RemoveAt(s: seq<real>, k: nat): (r: seq<real>)
    requires k < |s|
    ensures |r| == |s| - 1
    ensures multiset(r) + multiset{s[k]} == multiset(s)
  {
    assert s == s[..k] + [s[k]] + s[k + 1..];
    s[..k] + s[k + 1..]
  }

  function IndexOf(s: seq<real>, x: real): (k: nat)
    requires x in s
    ensures k < |s| && s[k] == x
  {
    if s[0] == x then 0 else 1 + IndexOf(s[1..], x)
  }

  /**
   * The scores that survive trimming: the input with exactly one occurrence of
   * its minimum and then one occurrence of its maximum removed.
   */
  function Survivors(s: seq<real>): (r: seq<real>)
    requires |s| >= 2
    ensures |r| == |s| - 2
    ensures multiset(r) + multiset{Min(s), Max(s)} == multiset(s)
  {
    var rest := RemoveAt(s, IndexOf(s, Min(s)));
    MaxSurvivesMinRemoval(s, rest);
    RemoveAt(rest, IndexOf(rest, Max(s)))
  }

  lemma MaxSurvivesMinRemoval(s: seq<real>, rest: seq<real>)
    requires |s| >= 2
    requires multiset(rest) + multiset{Min(s)} == multiset(s)
    ensures Max(s) in rest
  {
    var lo, hi := Min(s), Max(s);
    assert |rest| == |s| - 1 by {
      assert |multiset(rest)| + 1 == |multiset(s)|;
    }
    if hi != lo {
      assert hi in multiset(s);
      assert hi in multiset(rest);
    } else {
      var x := rest[0];
      assert x in multiset(rest);
      assert x in multiset(s);
      var i :| 0 <= i < |s| && s[i] == x;
      assert lo <= x <= hi;
    }
  }

  lemma {:induction false} SumAppend(a: seq<real>, b: seq<real>)
    ensures Sum(a + b) == Sum(a) + Sum(b)
  {
    if b == [] {
      assert a + b == a;
    } else {
      var ab, b' := a + b, b[..|b| - 1];
      assert ab[..|ab| - 1] == a + b';
      assert ab[|ab| - 1] == b[|b| - 1];
      SumAppend(a, b');
    }
  }

  lemma SumRemoveAt(s: seq<real>, k: nat)
    requires k < |s|
    ensures Sum(RemoveAt(s, k)) == Sum(s) - s[k]
  {
    var front, back := s[..k + 1], s[k + 1..];
    assert s == front + back;
    SumAppend(front, back);
    assert front[..|front| - 1] == s[..k];
    SumAppend(s[..k], back);
  }

  /** A sum of n scores lying in [lo, hi] lies in [n * lo, n * hi]. */
  lemma {:induction false} SumBetween(s: seq<real>, lo: real, hi: real)
    requires forall i :: 0 <= i < |s| ==> lo <= s[i] <= hi
    ensures |s| as real * lo <= Sum(s) <= |s| as real * hi
  {
    if s != [] {
      SumBetween(s[..|s| - 1], lo, hi);
    }
  }

  lemma DivideBetween(x: real, n: real, lo: real, hi: real)
    requires n > 0.0
    requires n * lo <= x <= n * hi
    ensures lo <= x / n <= hi
  {
  }

  /**
   * With three or more trials the candidate score is the plain mean of the
   * survivors, i.e. exactly one lowest and one highest score are discarded.
   */
  lemma TrimmedMeanIsMeanOfSurvivors(s: seq<real>)
    requires |s| >= 3
    ensures TrimmedMean(s) == Mean(Survivors(s))
  {
    var rest := RemoveAt(s, IndexOf(s, Min(s)));
    MaxSurvivesMinRemoval(s, rest);
    SumRemoveAt(s, IndexOf(s, Min(s)));
    SumRemoveAt(rest, IndexOf(rest, Max(s)));
  }

  /** Every survivor lies between the smallest and the largest original score. */
  lemma SurvivorsFromInput(s: seq<real>)
    requires |s| >= 3
    ensures forall i :: 0 <= i < |Survivors(s)| ==> Min(s) <= Survivors(s)[i] <= Max(s)
  {
    var r := Survivors(s);
    forall i | 0 <= i < |r|
      ensures Min(s) <= r[i] <= Max(s)
    {
      assert r[i] in multiset(r);
      assert r[i] in multiset(s);
    }
  }

  /** A mean of scores lying in [lo, hi] lies in [lo, hi]. */
  lemma MeanBetween(s: seq<real>, lo: real, hi: real)
    requires s != []
    requires forall i :: 0 <= i < |s| ==> lo <= s[i] <= hi
    ensures lo <= Mean(s) <= hi
  {
    SumBetween(s, lo, hi);
    DivideBetween(Sum(s), |s| as real, lo, hi);
  }

  /** The candidate score never leaves the range of the trial scores. */
  lemma TrimmedMeanBetween(s: seq<real>)
    requires s != []
    ensures Min(s) <= TrimmedMean(s) <= Max(s)
  {
    if |s| < 3 {
      MeanBetween(s, Min(s), Max(s));
    } else {
      TrimmedMeanIsMeanOfSurvivors(s);
      SurvivorsFromInput(s);
      MeanBetween(Survivors(s), Min(s), Max(s));
    }
  }

  /** Identical trial scores give that score back; all-failed trials give 0. */
  lemma TrimmedMeanOfConstant(s: seq<real>, c: real)
    requires s != []
    requires forall i :: 0 <= i < |s| ==> s[i] == c
    ensures TrimmedMean(s) == c
  {
    TrimmedMeanBetween(s);
  }

  /** Non-negative trial scores give a non-negative candidate score. */
  lemma TrimmedMeanNonNegative(s: seq<real>)
    requires s != []
    requires forall i :: 0 <= i < |s| ==> s[i] >= 0.0
    ensures TrimmedMean(s) >= 0.0
  {
    TrimmedMeanBetween(s);
  }

  /** The two worked examples: 1, 5, 9 gives 5 and 2, 2 gives 2. */
  lemma TrimmedMeanExamples()
    ensures TrimmedMean([1.0, 5.0, 9.0]) == 5.0
    ensures TrimmedMean([2.0, 2.0]) == 2.0
  {
    var s := [1.0, 5.0, 9.0];
    assert s[..2] == [1.0, 5.0];
    assert [1.0, 5.0][..1] == [1.0];
    assert [1.0][..0] == [];
    assert Sum([1.0]) == 1.0;
    assert Sum([1.0, 5.0]) == 6.0;
    assert Sum(s) == 15.0;
    assert Min(s) == 1.0 && Max(s) == 9.0;
    var t := [2.0, 2.0];
    assert t[..1] == [2.0];
    assert Sum([2.0]) == 2.0;
    assert Sum(t) == 4.0;
  }

  /**
   * The accumulation loop of the trial runner: one pass keeping the running
   * minimum, maximum and sum, then the mean or the trimmed mean.
   */
  method AggregateScores(scores: array<real>) returns (score: real)
    requires scores.Length > 0
    ensures score == TrimmedMean(scores[..])
    ensures Min(scores[..]) <= score <= Max(scores[..])
  {
    var minScore, maxScore, sumScore := scores[0], scores[0], 0.0;
    for i := 0 to scores.Length
      invariant sumScore == Sum(scores[..i])
      invariant i == 0 ==> minScore == scores[0] && maxScore == scores[0]
      invariant i > 0 ==> minScore == Min(scores[..i]) && maxScore == Max(scores[..i])
    {
      assert scores[..i + 1][..i] == scores[..i];
      var x := scores[i];
      if x < minScore {
        minScore := x;
      }
      if x > maxScore {
        maxScore := x;
      }
      sumScore := sumScore + x;
    }
    assert scores[..scores.Length] == scores[..];
    if scores.Length < 3 {
      score := sumScore / scores.Length as real;
    } else {
      score := (sumScore - minScore - maxScore) / (scores.Length - 2) as real;
    }
    TrimmedMeanBetween(scores[..]);
  }
}
