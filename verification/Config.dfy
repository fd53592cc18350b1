/** The service's configuration (config.go): which values loadConfig can produce. */
module Config {
  import opened Options
  import opened Text

  datatype Config = Config(
    serviceExchange: string, deploymentExchange: string,
    buildQueue: string, buildRoutingKey: string,
    buildSucceededKey: string, buildFailedKey: string,
    deploymentStartedKey: string, deploymentSucceededKey: string,
    deploymentFailedKey: string, deploymentRetryingKey: string,
    leaseDuration: int, maxAttempts: int, retryBackoffs: seq<int>,
    retryQueuePrefix: string, dlq: string)
  {
    /** What loadConfig guarantees, and that attempts fit the 32-bit message header. */
    predicate Valid() {
      && leaseDuration > 0
      && 1 <= maxAttempts <= 0x8000_0000
      && |retryBackoffs| > 0
      && AllPositive(retryBackoffs)
    }
  }

  predicate AllPositive(ds: seq<int>) {
    forall i :: 0 <= i < |ds| ==> ds[i] > 0
  }

  /** parsed is what strconv.Atoi makes of the trimmed variable. */
  function IntOrDefault(parsed: Option<int>, fallback: int): (v: int)
    ensures fallback >= 1 ==> v >= 1
    ensures parsed.Some? && parsed.value >= 1 ==> parsed == Some(v)
    ensures parsed.None? || parsed.value < 1 ==> v == fallback
  {
    if parsed.None? || parsed.value < 1 then fallback else parsed.value
  }

  /** What the variable means: every part parses to a positive duration. */
  predicate WellFormedSchedule(value: string, parse: string -> Option<int>) {
    var parts := Split(TrimSpace(value), ',');
    forall i :: 0 <= i < |parts| ==> parse(TrimSpace(parts[i])).Some? && parse(TrimSpace(parts[i])).value > 0
  }

  /** parse is time.ParseDuration. The schedule is never empty and never holds a delay of zero or
      less, whatever the environment says. */
  method DurationsOrDefault(value: string, fallback: seq<int>, parse: string -> Option<int>) returns (result: seq<int>)
    requires |fallback| > 0 && AllPositive(fallback)
    ensures |result| > 0 && AllPositive(result)
    ensures TrimSpace(value) == "" || !WellFormedSchedule(value, parse) ==> result == fallback
    ensures TrimSpace(value) != "" && WellFormedSchedule(value, parse) ==>
      var parts := Split(TrimSpace(value), ',');
      && |result| == |parts|
      && forall i :: 0 <= i < |parts| ==> Some(result[i]) == parse(TrimSpace(parts[i]))
  {
    var trimmed := TrimSpace(value);
    if trimmed == "" {
      return fallback;
    }
    var parts := Split(trimmed, ',');
    result := [];
    for i := 0 to |parts|
      invariant |result| == i
      invariant forall j :: 0 <= j < i ==> Some(result[j]) == parse(TrimSpace(parts[j])) && result[j] > 0
    {
      var d := parse(TrimSpace(parts[i]));
      if d.None? || d.value <= 0 {
        return fallback;
      }
      result := result + [d.value];
    }
  }
}
