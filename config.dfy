/**
 * The configuration consumed by the optimal balancing strategy and the
 * defaulting and validation that NewOptimalStrategy applies to it.
 *
 * Durations are Go `time.Duration` values: signed 64-bit nanosecond counts.
 */
module Config {
  import opened Wrappers

  type uint32 = x: int | 0 <= x < 0x1_0000_0000

  /** The largest value a `time.Duration` (an int64) can hold. */
  const MaxDuration: nat := 0x7FFF_FFFF_FFFF_FFFF
  const Millisecond: nat := 1_000_000
  const Second: nat := 1_000_000_000

  /** Defaults applied to zero-valued configuration fields. */
  const DefaultTimeout: nat := 5 * Second
  const DefaultInterval: nat := 60 * 10 * Second
  const DefaultCount: uint32 := 3

  /** BalancingOptimalStrategyConfig as decoded from protobuf; GlobalLock is unused by the strategy. */
  datatype BalancingOptimalStrategyConfig = BalancingOptimalStrategyConfig(
    timeout: uint32,   // milliseconds, 0 means the default
    interval: uint32,  // milliseconds, 0 means the default
    url: string,       // "" means the default probe URL
    count: uint32,     // trials per candidate, 0 means the default
    globalLock: bool)

  /** A parsed probe URL, reduced to its text and its scheme. */
  datatype Url = Url(raw: string, scheme: string)

  /** What `url.Parse` made of the configured URL text. */
  datatype UrlParse = ParseFailed | Parsed(scheme: string)

  /** The two ways construction aborts. */
  datatype ConstructError = InvalidUrl | UnsupportedScheme(scheme: string)

  const DefaultUrl: Url := Url("https://www.google.com", "https")

  predicate SupportedScheme(scheme: string) {
    scheme == "http" || scheme == "https"
  }

  /**
   * The probe URL NewOptimalStrategy keeps, or the reason it aborts.
   * `parse` is the outcome of parsing `config.url`; it is ignored when the URL is empty.
   */
  function ResolveUrl(config: BalancingOptimalStrategyConfig, parse: UrlParse): (r: Result<Url, ConstructError>)
    ensures r.Success? ==> SupportedScheme(r.value.scheme)
    ensures config.url == "" ==> r == Success(DefaultUrl)
    ensures config.url != "" ==>
      (r.Success? <==> parse.Parsed? && SupportedScheme(parse.scheme))
    ensures config.url != "" && r.Success? ==> r.value.raw == config.url && r.value.scheme == parse.scheme
    ensures config.url != "" && parse.Parsed? && !SupportedScheme(parse.scheme) ==>
      r == Failure(UnsupportedScheme(parse.scheme))
    ensures r == Failure(InvalidUrl) <==> config.url != "" && parse.ParseFailed?
  {
    if config.url == "" then
      Success(DefaultUrl)
    else
      match parse
      case ParseFailed => Failure(InvalidUrl)
      case Parsed(scheme) =>
        if !SupportedScheme(scheme) then Failure(UnsupportedScheme(scheme))
        else Success(Url(config.url, scheme))
  }

  /** The probe deadline; a non-zero setting is taken as milliseconds. */
  function TimeoutOf(config: BalancingOptimalStrategyConfig): (d: nat)
    ensures 0 < d <= MaxDuration
    ensures config.timeout == 0 ==> d == DefaultTimeout
    ensures config.timeout != 0 ==> d / Millisecond == config.timeout && d % Millisecond == 0
  {
    if config.timeout == 0 then DefaultTimeout else config.timeout * Millisecond
  }

  /** The round period; a non-zero setting is taken as milliseconds. */
  function IntervalOf(config: BalancingOptimalStrategyConfig): (d: nat)
    ensures 0 < d <= MaxDuration
    ensures config.interval == 0 ==> d == DefaultInterval
    ensures config.interval != 0 ==> d / Millisecond == config.interval && d % Millisecond == 0
  {
    if config.interval == 0 then DefaultInterval else config.interval * Millisecond
  }

  /** The number of trials per candidate and round. */
  function CountOf(config: BalancingOptimalStrategyConfig): (n: uint32)
    ensures n >= 1
    ensures config.count == 0 ==> n == DefaultCount
    ensures config.count != 0 ==> n == config.count
  {
    if config.count == 0 then DefaultCount else config.count
  }
}
