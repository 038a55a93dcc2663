/**
 * The optimal balancing strategy: it picks one outbound tag of a balancing
 * group by probing every candidate outbound and publishing the fastest.
 *
 * The network is an input: a `Probe` says what the k-th trial of the
 * candidate in result slot i observed. The periodic scheduler is reduced to
 * the `started` flag, and a round (`Run`) is executed sequentially because
 * each concurrent trial runner writes only its own result slot.
 */
module Strategy {
  import opened Wrappers
  import opened Config
  import opened Scoring
  import opened Ranking

  /** The outbound handler registry: the tags that resolve to a handler. */
  datatype OutboundManager = OutboundManager(handlers: set<string>)
  {
    predicate HasHandler(tag: string) {
      tag in handlers
    }
  }

  /** The observed outcome of trial `k` run by the trial runner of result slot `i`. */
  type Probe = (nat, nat) -> Trial

  /** Selecting from an empty tag list is a usage error. */
  datatype PickError = NoTags

  /** The scores of the `count` trials of result slot `slot`. */
  function TrialScores(probe: Probe, slot: nat, count: nat): (r: seq<real>)
    ensures |r| == count
    ensures forall k :: 0 <= k < count && probe(slot, k).Failed? ==> r[k] == 0.0
  {
    seq(count, k requires 0 <= k < count => TrialScore(probe(slot, k)))
  }

  /** The score a round records for `tag` in slot `slot`: 0 when no handler resolves. */
  ghost function SlotScore(obm: OutboundManager, tag: string, slot: nat, count: nat, probe: Probe): (r: real)
    requires count >= 1
    ensures !obm.HasHandler(tag) ==> r == 0.0
    ensures obm.HasHandler(tag) ==>
      Min(TrialScores(probe, slot, count)) <= r <= Max(TrialScores(probe, slot, count))
  {
    TrimmedMeanBetween(TrialScores(probe, slot, count));
    if obm.HasHandler(tag) then TrimmedMean(TrialScores(probe, slot, count)) else 0.0
  }

  /** The result slots of a round before sorting: slot i holds tags[i] and its score. */
  ghost function RoundSlots(obm: OutboundManager, tags: seq<string>, count: nat, probe: Probe): (r: seq<TestResult>)
    requires count >= 1
    ensures |r| == |tags|
    ensures forall i :: 0 <= i < |tags| ==> r[i].tag == tags[i]
    ensures forall i :: 0 <= i < |tags| && !obm.HasHandler(tags[i]) ==> r[i].score == 0.0
  {
    seq(|tags|, i requires 0 <= i < |tags| => TestResult(tags[i], SlotScore(obm, tags[i], i, count, probe)))
  }

  /** A candidate that lost every trial leaves the round with score 0. */
  lemma AllFailedScoresZero(obm: OutboundManager, tag: string, slot: nat, count: nat, probe: Probe)
    requires count >= 1
    requires forall k :: 0 <= k < count ==> probe(slot, k).Failed?
    ensures SlotScore(obm, tag, slot, count, probe) == 0.0
  {
    if obm.HasHandler(tag) {
      TrimmedMeanOfConstant(TrialScores(probe, slot, count), 0.0);
    }
  }

  /**
   * A registered candidate whose every trial beats every trial of another
   * candidate gets the strictly higher score.
   */
  lemma DominantSlotScoresHigher(obm: OutboundManager, tagK: string, k: nat, tagJ: string, j: nat,
                                 count: nat, probe: Probe)
    requires count >= 1 && obm.HasHandler(tagK)
    requires forall b :: 0 <= b < count ==> TrialScore(probe(j, b)) >= 0.0
    requires forall a, b :: 0 <= a < count && 0 <= b < count ==>
      TrialScore(probe(j, b)) < TrialScore(probe(k, a))
    ensures SlotScore(obm, tagJ, j, count, probe) < SlotScore(obm, tagK, k, count, probe)
  {
    var winner, loser := TrialScores(probe, k, count), TrialScores(probe, j, count);
    TrimmedMeanBetween(winner);
    TrimmedMeanBetween(loser);
    var a := IndexOf(winner, Min(winner));
    var b := IndexOf(loser, Max(loser));
    assert loser[b] < winner[a];
    assert loser[0] >= 0.0;
  }

  class OptimalStrategy {
    const timeout: nat       // probe deadline, nanoseconds
    const interval: nat      // round period, nanoseconds
    const url: Url           // probe URL
    const count: uint32      // trials per candidate and round
    var obm: OutboundManager
    var tag: string          // the published winner
    var tags: seq<string>    // the candidate list of the latest call with two or more tags
    var started: bool        // the periodic round task exists
    ghost var launches: nat  // how many periodic round tasks have been launched

    ghost predicate Valid()
      reads this
    {
      && 0 < timeout <= MaxDuration
      && 0 < interval <= MaxDuration
      && count >= 1
      && SupportedScheme(url.scheme)
      && (started ==> |tags| >= 2)
      && launches == (if started then 1 else 0)
    }

    /** Applies the defaults field by field; `url` has already been validated. */
    constructor (config: BalancingOptimalStrategyConfig, url: Url)
      requires SupportedScheme(url.scheme)
      ensures Valid()
      ensures timeout == TimeoutOf(config) && interval == IntervalOf(config)
      ensures count == CountOf(config) && this.url == url
      ensures tag == "" && tags == [] && !started && launches == 0
    {
      if config.timeout == 0 {
        timeout := DefaultTimeout;
      } else {
        timeout := config.timeout * Millisecond;
      }
      if config.interval == 0 {
        interval := DefaultInterval;
      } else {
        interval := config.interval * Millisecond;
      }
      this.url := url;
      if config.count == 0 {
        count := DefaultCount;
      } else {
        count := config.count;
      }
      obm := OutboundManager({});
      tag, tags, started := "", [], false;
      launches := 0;
    }

    /**
     * Returns the published tag. An empty list fails; a single tag returns the
     * published tag as it stands. Two or more tags replace the registry and
     * the candidate list, and the first such call publishes tags[0] and
     * launches the periodic rounds, which no later call launches again.
     */
    method PickOutbound(obm: OutboundManager, tags: seq<string>) returns (r: Result<string, PickError>)
      requires Valid()
      modifies this`obm, this`tags, this`tag, this`started, this`launches
      ensures Valid() && launches <= 1
      ensures |tags| == 0 ==> r == Failure(NoTags) && unchanged(this)
      ensures |tags| == 1 ==> r == Success(old(this.tag)) && unchanged(this)
      ensures |tags| >= 2 ==>
        && this.obm == obm && this.tags == tags && started
        && this.tag == (if old(started) then old(this.tag) else tags[0])
        && launches == old(launches) + (if old(started) then 0 else 1)
        && r == Success(this.tag)
    {
      if |tags| == 0 {
        return Failure(NoTags);
      } else if |tags| == 1 {
        return Success(tag);
      }
      this.obm := obm;
      this.tags := tags;
      // check, lock, check: the mutex is not modelled, so both checks read the same flag
      if !started {
        if !started {
          tag := this.tags[0];
          started := true;
          launches := launches + 1;
        }
      }
      r := Success(tag);
    }

    /**
     * PickOutbound with the single-tag case returning that tag, as the
     * strategy is meant to; everything else is unchanged.
     */
    method PickOutboundFixed(obm: OutboundManager, tags: seq<string>) returns (r: Result<string, PickError>)
      requires Valid()
      modifies this`obm, this`tags, this`tag, this`started, this`launches
      ensures Valid() && launches <= 1
      ensures |tags| == 0 ==> r == Failure(NoTags) && unchanged(this)
      ensures |tags| == 1 ==> r == Success(tags[0]) && unchanged(this)
      ensures |tags| >= 2 ==>
        && this.obm == obm && this.tags == tags && started
        && this.tag == (if old(started) then old(this.tag) else tags[0])
        && launches == old(launches) + (if old(started) then 0 else 1)
        && r == Success(this.tag)
      ensures tags != [] && NamedTags(tags) && (old(started) ==> old(this.tag) != "") ==>
        r.Success? && r.value != "" && (started ==> this.tag != "")
    {
      if |tags| == 0 {
        return Failure(NoTags);
      } else if |tags| == 1 {
        return Success(tags[0]);
      }
      this.obm := obm;
      this.tags := tags;
      if !started {
        tag := this.tags[0];
        started := true;
        launches := launches + 1;
      }
      r := Success(tag);
    }

    /**
     * One trial runner: `count` probes through the handler for `tag`, each
     * scored 0 on failure, reduced to one score. None when no handler
     * resolves, in which case the result slot is left as it is.
     */
    method TestOutbound(tag: string, slot: nat, count: uint32, probe: Probe) returns (score: Option<real>)
      requires count >= 1
      ensures !obm.HasHandler(tag) ==> score == None
      ensures obm.HasHandler(tag) ==> score == Some(TrimmedMean(TrialScores(probe, slot, count)))
    {
      if !obm.HasHandler(tag) {
        return None;
      }
      var scores := new real[count];
      for i := 0 to count
        invariant forall k :: 0 <= k < i ==> scores[k] == TrialScore(probe(slot, k))
      {
        scores[i] := TrialScore(probe(slot, i));
      }
      assert scores[..] == TrialScores(probe, slot, count);
      var s := AggregateScores(scores);
      score := Some(s);
    }

    /**
     * One round: every candidate of the latest list is scored into its own
     * slot, the slots are sorted by descending score and the first slot's tag
     * is published. The published tag is a candidate with a maximal score.
     */
    method Run(probe: Probe) returns (results: array<TestResult>)
      requires Valid() && started
      modifies this`tag
      ensures Valid()
      ensures fresh(results) && results.Length == |tags|
      ensures multiset(results[..]) == multiset(RoundSlots(obm, tags, count, probe))
      ensures SortedByScore(results[..])
      ensures tag == results[0].tag
      ensures exists k :: 0 <= k < |tags| && tag == tags[k] && IsBestSlot(obm, tags, count, probe, k)
    {
      var tags, count := this.tags, this.count;
      ghost var slots := RoundSlots(obm, tags, count, probe);
      results := new TestResult[|tags|](_ => TestResult("", 0.0));
      for i := 0 to |tags|
        invariant forall p :: 0 <= p < i ==> results[p] == slots[p]
        invariant forall p :: i <= p < |tags| ==> results[p] == TestResult("", 0.0)
      {
        results[i] := results[i].(tag := tags[i]);
        var score := TestOutbound(tags[i], i, count, probe);
        if score.Some? {
          results[i] := results[i].(score := score.value);
        }
        assert results[i] == slots[i];
      }
      assert results[..] == slots;
      SortByScore(results);
      tag := results[0].tag;
      PublishedSlotIsBest(obm, tags, count, probe, results[..]);
    }
  }

  /** After sorting a round's slots, the first slot is a candidate with a maximal score. */
  lemma PublishedSlotIsBest(obm: OutboundManager, tags: seq<string>, count: nat, probe: Probe,
                            sorted: seq<TestResult>)
    requires count >= 1 && tags != []
    requires multiset(sorted) == multiset(RoundSlots(obm, tags, count, probe))
    requires SortedByScore(sorted)
    ensures sorted != []
    ensures exists k :: 0 <= k < |tags| && sorted[0].tag == tags[k] && IsBestSlot(obm, tags, count, probe, k)
  {
    var slots := RoundSlots(obm, tags, count, probe);
    WinnerHasMaximalScore(sorted, slots);
    var k :| 0 <= k < |slots| && slots[k] == sorted[0];
    assert IsBestSlot(obm, tags, count, probe, k) by {
      forall j | 0 <= j < |tags|
        ensures SlotScore(obm, tags[j], j, count, probe) <= SlotScore(obm, tags[k], k, count, probe)
      {
        assert slots[j].score <= sorted[0].score;
      }
    }
  }

  /** No slot of the round scores higher than slot k. */
  ghost predicate IsBestSlot(obm: OutboundManager, tags: seq<string>, count: nat, probe: Probe, k: nat)
    requires count >= 1 && k < |tags|
  {
    forall j :: 0 <= j < |tags| ==>
      SlotScore(obm, tags[j], j, count, probe) <= SlotScore(obm, tags[k], k, count, probe)
  }

  /** Every candidate tag is a non-empty name. */
  predicate NamedTags(tags: seq<string>)
  {
    forall i :: 0 <= i < |tags| ==> tags[i] != ""
  }

  /**
   * Builds the strategy from its configuration; `parse` is what parsing the
   * configured URL produced. Fails when that URL does not parse or is not
   * http or https.
   */
  method NewOptimalStrategy(config: BalancingOptimalStrategyConfig, parse: UrlParse)
    returns (r: Result<OptimalStrategy, ConstructError>)
    ensures r.Failure? <==> ResolveUrl(config, parse).Failure?
    ensures r.Failure? ==> r.error == ResolveUrl(config, parse).error
    ensures r.Success? ==>
      && fresh(r.value) && r.value.Valid()
      && r.value.url == ResolveUrl(config, parse).value
      && r.value.timeout == TimeoutOf(config)
      && r.value.interval == IntervalOf(config)
      && r.value.count == CountOf(config)
      && r.value.tag == "" && r.value.tags == [] && !r.value.started
  {
    match ResolveUrl(config, parse)
    case Failure(e) =>
      r := Failure(e);
    case Success(u) =>
      var s := new OptimalStrategy(config, u);
      r := Success(s);
  }
}
