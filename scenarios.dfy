/**
 * Client runs of the strategy that pin down concrete outcomes: what callers
 * of the selection facade and of a round can rely on from the contracts alone.
 */
module Scenarios {
  import opened Wrappers
  import opened Config
  import opened Scoring
  import opened Ranking
  import opened Strategy

  const DefaultConfig := BalancingOptimalStrategyConfig(0, 0, "", 0, false)

  /** The URL text of DefaultConfig is empty, so the parse outcome passed with it is never consulted. */
  const UnusedParse := Parsed("https")

  /**
   * Three candidates where "b" is faster than the others in every trial: the
   * first call publishes "a" (the default before any round), and once a round
   * has run the facade returns "b".
   */
  method FastestCandidateWins() returns (first: Result<string, PickError>, second: Result<string, PickError>)
    ensures first == Success("a") && second == Success("b")
  {
    var created := NewOptimalStrategy(DefaultConfig, UnusedParse);
    var s := created.value;
    first := s.PickOutbound(ThreeHandlers, ThreeTags);
    var results := s.Run(FastestB);
    ghost var k :| 0 <= k < 3 && s.tag == ThreeTags[k] && IsBestSlot(ThreeHandlers, ThreeTags, 3, FastestB, k);
    OnlyFastestIsBest(k);
    second := s.PickOutbound(ThreeHandlers, ThreeTags);
  }

  const ThreeHandlers := OutboundManager({"a", "b", "c"})
  const ThreeTags := ["a", "b", "c"]

  /** Every trial through "b" (slot 1) measures 2048 bytes per second, every other trial 512. */
  const FastestB: Probe := (slot, trial) => if slot == 1 then Measured(2048.0) else Measured(512.0)

  /** In that round, slot 1 ("b") is the only slot with a maximal score. */
  lemma OnlyFastestIsBest(k: nat)
    requires k < 3 && IsBestSlot(ThreeHandlers, ThreeTags, 3, FastestB, k)
    ensures k == 1
  {
    if k != 1 {
      DominantSlotScoresHigher(ThreeHandlers, ThreeTags[1], 1, ThreeTags[k], k, 3, FastestB);
      assert false;
    }
  }

  /** A round in which every probe fails still publishes one of the candidates. */
  method AllProbesFail() returns (winner: string)
    ensures winner == "a" || winner == "b"
  {
    var created := NewOptimalStrategy(DefaultConfig, UnusedParse);
    var s := created.value;
    var first := s.PickOutbound(OutboundManager({"a", "b"}), ["a", "b"]);
    var results := s.Run((slot, trial) => Failed);
    winner := s.tag;
  }

  /** As written, a single candidate before any round yields the empty tag. */
  method SingleTagBeforeStart() returns (r: Result<string, PickError>)
    ensures r == Success("")
  {
    var s := new OptimalStrategy(DefaultConfig, DefaultUrl);
    r := s.PickOutbound(OutboundManager({"proxy"}), ["proxy"]);
  }

  /** With the single-tag case corrected, that candidate is returned. */
  method SingleTagBeforeStartFixed() returns (r: Result<string, PickError>)
    ensures r == Success("proxy")
  {
    var s := new OptimalStrategy(DefaultConfig, DefaultUrl);
    r := s.PickOutboundFixed(OutboundManager({"proxy"}), ["proxy"]);
  }

  /** A probe URL with an unsupported scheme aborts construction. */
  method FtpProbeUrlRejected() returns (failed: bool)
    ensures failed
  {
    var config := BalancingOptimalStrategyConfig(0, 0, "ftp://example.com", 0, false);
    var r := NewOptimalStrategy(config, Parsed("ftp"));
    failed := r.Failure?;
  }

  /**
   * With named candidates the corrected facade, a round and the facade again
   * keep the published tag non-empty, so the never-empty promise applies on
   * every call.
   */
  method NamedTagsStayNamed(probe: Probe) returns (first: Result<string, PickError>, second: Result<string, PickError>)
    ensures first == Success("a")
    ensures second.Success? && (second.value == "a" || second.value == "b")
  {
    var created := NewOptimalStrategy(DefaultConfig, UnusedParse);
    var s := created.value;
    var obm := OutboundManager({"a", "b"});
    first := s.PickOutboundFixed(obm, ["a", "b"]);
    var results := s.Run(probe);
    assert s.tag != "";
    second := s.PickOutboundFixed(obm, ["a", "b"]);
  }
}
