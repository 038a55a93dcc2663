# Optimal balancing strategy (v2ray-core router)

A Dafny model of `OptimalStrategy`, the balancing strategy of the v2ray-core
router that picks one outbound tag of a balancing group by measuring each
outbound's speed. The model covers:

- **construction** (`NewOptimalStrategy`): defaults for timeout (5 s),
  interval (600 s), probe URL (`https://www.google.com`) and trial count (3),
  and the rejection of a probe URL that does not parse or is neither `http`
  nor `https`;
- **the selection facade** (`PickOutbound`): a small state machine over the
  fields `obm`, `tags`, `tag` and the "periodic task started" flag;
- **the trial runner** (`testOutboud`): one score per trial (0 when the probe
  request fails) and the reduction of the trial scores to one candidate score:
  a plain mean below three trials, otherwise the sum minus one minimum and one
  maximum, divided by the trial count minus 2;
- **a round** (`run`): every candidate scored into its own result slot, the
  slots sorted in place by descending score, the first slot's tag published.

Files: `wrappers.dfy` (Result/Option), `config.dfy` (configuration, durations,
URL resolution), `scoring.dfy` (trial scores and the trimmed mean),
`ranking.dfy` (result slots and the in-place sort), `strategy.dfy` (the
`OptimalStrategy` class), `scenarios.dfy` (client runs with fixed outcomes).

Inputs that stand for things outside the strategy:

- the network: a `Probe` gives the outcome of trial `k` of the trial runner of
  result slot `i`, either `Failed` or `Measured(speed)`;
- the outbound manager: `OutboundManager` is the set of tags that resolve to a
  handler;
- `url.Parse`: a `UrlParse` value, either `ParseFailed` or `Parsed(scheme)`.

Scores are `real`, not IEEE doubles. Durations are nanosecond counts, as Go's
`time.Duration` is; the model shows that a configured value (a `uint32` of
milliseconds) never overflows the signed 64-bit range. Panics become
`Failure` results (`NoTags`, `InvalidUrl`, `UnsupportedScheme`).

Two behaviours are easy to expect differently from what the code does, and
the model follows the code:

- a single candidate makes `PickOutbound` return the field `s.tag`, not that
  candidate (see Findings);
- the round sorts with `sort.Slice`, which is not stable, so nothing is
  claimed about the order of equal scores, in particular no preference for
  the earlier candidate.

## Model

| member | source | states |
|---|---|---|
| `Config.ResolveUrl` | app/router/balancing_optimal_strategy.go:50-61 | an empty URL gives the default https URL; a non-empty one is accepted iff it parses and its scheme is http or https; a parse failure and only that gives `InvalidUrl`; an unsupported scheme gives `UnsupportedScheme` carrying that scheme; an accepted URL keeps the configured text and the parsed scheme, which is always http or https |
| `Config.TimeoutOf` | app/router/balancing_optimal_strategy.go:40-44 | 0 gives 5 s; otherwise exactly the configured milliseconds; always positive and within the int64 range of a duration |
| `Config.IntervalOf` | app/router/balancing_optimal_strategy.go:45-49 | 0 gives 600 s; otherwise exactly the configured milliseconds; always positive and within the int64 range |
| `Config.CountOf` | app/router/balancing_optimal_strategy.go:62-66 | 0 gives 3; otherwise the configured count; so always at least 1 |
| `Strategy.OptimalStrategy.constructor` | app/router/balancing_optimal_strategy.go:39-68 | fills timeout, interval, url and count with the defaulted values; nothing is published, no tags, not started |
| `Strategy.NewOptimalStrategy` | app/router/balancing_optimal_strategy.go:38-69 | fails exactly when the URL is rejected, with that error; otherwise a fresh, valid, not-started strategy with the defaulted settings |
| `Strategy.OptimalStrategy.PickOutbound` | app/router/balancing_optimal_strategy.go:72-96 | empty list fails and changes nothing; one tag returns the current `tag` and changes nothing; two or more overwrite `obm` and `tags`, mark started, publish `tags[0]` only on the first such call, launch the rounds exactly once (at most one launch ever), and return the published tag |
| `Strategy.OptimalStrategy.TestOutbound` | app/router/balancing_optimal_strategy.go:131-193 | no handler gives no score (the slot keeps its zero score); otherwise the trimmed mean of the `count` trial scores, each 0 for a failed trial |
| `Strategy.OptimalStrategy.Run` | app/router/balancing_optimal_strategy.go:104-128 | the results are a permutation of the slots (`tags[i]`, score of slot i), sorted by non-increasing score; the published tag is the first slot's, a candidate whose score is maximal |
| `Strategy.PublishedSlotIsBest` | app/router/balancing_optimal_strategy.go:119-124 | the first of the sorted slots is some `tags[k]` with no slot scoring higher than slot k |
| `Strategy.AllFailedScoresZero` | app/router/balancing_optimal_strategy.go:148-166 | a candidate whose every trial fails scores 0, registered or not |
| `Strategy.DominantSlotScoresHigher` | app/router/balancing_optimal_strategy.go:172-190 | a registered candidate whose every trial beats every trial of another candidate ends with the strictly higher score |
| `Scoring.TrialScore` | app/router/balancing_optimal_strategy.go:149-151 | a failed trial scores 0 |
| `Scoring.Min` | app/router/balancing_optimal_strategy.go:178-180 | the running minimum is an element of the scores and no score is below it |
| `Scoring.Max` | app/router/balancing_optimal_strategy.go:181-183 | the running maximum is an element of the scores and no score is above it |
| `Scoring.Sum` | app/router/balancing_optimal_strategy.go:174-184 | the `sumScore` accumulator, added to element by element from the front; it starts at 0 for no scores |
| `Scoring.TrimmedMean` | app/router/balancing_optimal_strategy.go:186-190 | the candidate score formula: the plain mean below three scores, otherwise (sum − min − max)/(n − 2); the reference every aggregation lemma and `AggregateScores` are stated against |
| `Strategy.TrialScores` | app/router/balancing_optimal_strategy.go:141-166 | the `scores` slice of one trial runner: one entry per trial, 0 for a failed trial |
| `Strategy.SlotScore` | app/router/balancing_optimal_strategy.go:135-139 | the score a result slot ends with: 0 when no handler resolves for the tag, otherwise the trimmed mean of its trial scores, which lies between their minimum and maximum |
| `Strategy.RoundSlots` | app/router/balancing_optimal_strategy.go:108-116 | the unsorted `results` array after the trial runners: slot i carries `tags[i]` and its slot score, 0 for a tag without handler |
| `Scoring.AggregateScores` | app/router/balancing_optimal_strategy.go:171-190 | the accumulator loop computes the trimmed mean of the scores, which lies between their minimum and maximum |
| `Scoring.Survivors` | app/router/balancing_optimal_strategy.go:189 | the scores minus exactly one occurrence of the minimum and one of the maximum: two fewer, same multiset otherwise |
| `Scoring.TrimmedMeanIsMeanOfSurvivors` | app/router/balancing_optimal_strategy.go:186-190 | with three or more trials the candidate score is the plain mean of the survivors, so only one instance of each extreme is dropped |
| `Scoring.TrimmedMeanBetween` | app/router/balancing_optimal_strategy.go:186-190 | the candidate score lies between the smallest and the largest trial score |
| `Scoring.TrimmedMeanOfConstant` | app/router/balancing_optimal_strategy.go:186-190 | equal trial scores c give c; all-failed trials give 0 |
| `Scoring.TrimmedMeanNonNegative` | app/router/balancing_optimal_strategy.go:186-190 | non-negative trial scores give a non-negative candidate score |
| `Scoring.TrimmedMeanExamples` | app/router/balancing_optimal_strategy.go:186-190 | 1, 5, 9 gives 5 (divisor 1) and 2, 2 gives 2 |
| `Ranking.SortByScore` | app/router/balancing_optimal_strategy.go:119-122 | sorts the result slots in place into non-increasing score order, as a permutation of the input |
| `Ranking.WinnerHasMaximalScore` | app/router/balancing_optimal_strategy.go:119-124 | the first slot after sorting is one of the round's slots and no slot scores higher |
| `Scenarios.FastestCandidateWins` | app/router/balancing_optimal_strategy.go:72-128 | candidates a, b, c with b fastest in every trial: the first call returns a, after one round the facade returns b |
| `Scenarios.OnlyFastestIsBest` | app/router/balancing_optimal_strategy.go:119-124 | in the round where b wins every trial, b's slot is the only one with a maximal score, so it is the tag published |
| `Scenarios.AllProbesFail` | app/router/balancing_optimal_strategy.go:104-128 | a round where every probe fails still publishes one of the candidates |
| `Scenarios.FtpProbeUrlRejected` | app/router/balancing_optimal_strategy.go:58-60 | an `ftp` probe URL aborts construction |
| `Scenarios.SingleTagBeforeStart` | app/router/balancing_optimal_strategy.go:75-76 | as written, one candidate before any round returns the empty tag |
| `Strategy.OptimalStrategy.PickOutboundFixed` | app/router/balancing_optimal_strategy.go:75-76 | corrected facade: one candidate returns that candidate; with non-empty candidate names and a non-empty published tag, the result is never empty |
| `Scenarios.NamedTagsStayNamed` | app/router/balancing_optimal_strategy.go:72-128 | with named candidates, the corrected facade, any round and the corrected facade again return a non-empty candidate, so the never-empty promise holds on every call |
| `Scenarios.SingleTagBeforeStartFixed` | app/router/balancing_optimal_strategy.go:75-76 | with the correction, one candidate before any round returns that candidate |

## Left out

- `buildClient` (the HTTP transport over in-process pipes and the goroutine that dispatches through the handler): I/O and library code; its effect is summed up by the `Probe` input.
- The throughput formula and body scanning (bytes or the nominal 100 bytes per elapsed second): wall-clock timing and a scanner; a successful trial's score is given as `Measured(speed)`.
- Floating point: scores are reals, so rounding is not modelled.
- `Scoring.AggregateScores`: the running minimum and maximum start at the first score instead of the `MaxInt64`/`MinInt64` sentinels, so scores beyond about 9.2e18 are not modelled; it divides by the slice length minus 2, which equals `s.count - 2` because the slice has `count` elements.
- Goroutines, the `WaitGroup`, `periodicMutex` and the `task.Periodic` timer loop: concurrency and scheduling. The started flag stands for `periodic != nil`, a ghost counter records launches, and a round is one sequential call of `Run` (each trial runner writes only its own slot). The interval is kept but never used to schedule anything.
- `Ranking.SortByScore`: a selection sort stands for `sort.Slice`; only sortedness and permutation are claimed, which is all `sort.Slice` promises, so the order among equal scores is one possible order.
- `url.Parse` internals: the parse is an input reduced to a scheme or a failure.
- Logging through `newError(...).WriteToLog()`: no observable effect on the strategy's state.
- `app/router/config.pb.go`: protobuf glue; only `BalancingOptimalStrategyConfig` is mirrored as a datatype (`GlobalLock` is carried but unused, as in the strategy).
- The initial `obm` is nil in the source; the model starts with an empty registry, which no round can observe because a round runs only after `PickOutbound` has set `obm`.

## Findings

| source | as written | input that shows it | evidently intended | confidence | as-written member | corrected member |
|---|---|---|---|---|---|---|
| app/router/balancing_optimal_strategy.go:75-76 | with exactly one tag, `PickOutbound` returns the field `s.tag`, which stays "" until a call with two or more tags has started the rounds | a fresh strategy and `PickOutbound(obm, ["proxy"])` returns "" | return that single tag, without starting the rounds | medium, not executed | `Scenarios.SingleTagBeforeStart` | `Strategy.OptimalStrategy.PickOutboundFixed` |
