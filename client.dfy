/**
 * Client configuration of Custom_RoundTrippers_Middlewares/.../client:
 * reading the settings from the environment and stacking the transport
 * layers. The environment is a map (an unset variable reads as ""), and
 * `strconv.Atoi` is the parameter `atoi`, which gives no value for text it
 * cannot parse.
 */
module Client {
  import opened Wrappers
  import opened CircuitBreaker
  import opened Environment

  datatype Config = Config(log: bool, breaker: BreakerConfig)

  /** The error `strconv.Atoi` returns for the text `num`. */
  datatype NumError = NumError(num: string)

  /** The value a breaker field takes: 0 when its variable is empty or unset, the parsed value otherwise, none when parsing fails. */
  function Setting(env: map<string, string>, atoi: string -> Option<int>, key: string): Option<int>
  {
    if Getenv(env, key) == "" then Some(0) else atoi(Getenv(env, key))
  }

  /**
   * `ReadConf`: LOG is on only for the exact text "true"; the three
   * breaker variables are read in the order MAX_REQUESTS, INTERVAL, TIMEOUT,
   * and the first that does not parse ends the read with its error and the
   * fields read so far, the rest left 0.
   */
  method ReadConf(env: map<string, string>, atoi: string -> Option<int>) returns (cfg: Config, err: Option<NumError>)
    ensures cfg.log <==> Getenv(env, "LOG") == "true"
    ensures Setting(env, atoi, "MAX_REQUESTS").None? ==>
      err == Some(NumError(Getenv(env, "MAX_REQUESTS"))) && cfg.breaker == BreakerConfig(0, 0, 0)
    ensures Setting(env, atoi, "MAX_REQUESTS").Some? && Setting(env, atoi, "INTERVAL").None? ==>
      err == Some(NumError(Getenv(env, "INTERVAL"))) &&
      cfg.breaker == BreakerConfig(Setting(env, atoi, "MAX_REQUESTS").value, 0, 0)
    ensures Setting(env, atoi, "MAX_REQUESTS").Some? && Setting(env, atoi, "INTERVAL").Some? &&
            Setting(env, atoi, "TIMEOUT").None? ==>
      err == Some(NumError(Getenv(env, "TIMEOUT"))) &&
      cfg.breaker == BreakerConfig(Setting(env, atoi, "MAX_REQUESTS").value, Setting(env, atoi, "INTERVAL").value, 0)
    ensures err.None? <==>
      Setting(env, atoi, "MAX_REQUESTS").Some? && Setting(env, atoi, "INTERVAL").Some? && Setting(env, atoi, "TIMEOUT").Some?
    ensures err.None? ==>
      cfg.breaker == BreakerConfig(Setting(env, atoi, "MAX_REQUESTS").value, Setting(env, atoi, "INTERVAL").value,
                                   Setting(env, atoi, "TIMEOUT").value)
  {
    cfg := Config(false, BreakerConfig(0, 0, 0));
    if Getenv(env, "LOG") == "true" {
      cfg := cfg.(log := true);
    }

    if Getenv(env, "MAX_REQUESTS") != "" {
      var maxReq := atoi(Getenv(env, "MAX_REQUESTS"));
      if maxReq.None? {
        return cfg, Some(NumError(Getenv(env, "MAX_REQUESTS")));
      }
      cfg := cfg.(breaker := cfg.breaker.(maxRequests := maxReq.value));
    }

    if Getenv(env, "INTERVAL") != "" {
      var interval := atoi(Getenv(env, "INTERVAL"));
      if interval.None? {
        return cfg, Some(NumError(Getenv(env, "INTERVAL")));
      }
      cfg := cfg.(breaker := cfg.breaker.(interval := interval.value));
    }

    if Getenv(env, "TIMEOUT") != "" {
      var timeout := atoi(Getenv(env, "TIMEOUT"));
      if timeout.None? {
        return cfg, Some(NumError(Getenv(env, "TIMEOUT")));
      }
      cfg := cfg.(breaker := cfg.breaker.(timeout := timeout.value));
    }

    return cfg, None;
  }

  /** With none of the variables set, logging is off and there is no breaker. */
  lemma EmptyEnvironment(atoi: string -> Option<int>)
    ensures Getenv(map[], "LOG") != "true"
    ensures Setting(map[], atoi, "MAX_REQUESTS") == Setting(map[], atoi, "INTERVAL") == Setting(map[], atoi, "TIMEOUT") == Some(0)
    ensures ConfigureCircuitBreaker(BreakerConfig(0, 0, 0)).0 == None
  {
  }

  /** An HTTP transport as a stack of round-trippers. */
  datatype Transport =
    | DefaultTransport
    | BreakerLayer(next: Transport, settings: Settings)
    | LoggingLayer(next: Transport)

  datatype LayerKind = Logging | Breaker

  /** The layers a request passes through before the default transport, outermost first. */
  function Layers(t: Transport): seq<LayerKind>
  {
    match t
    case DefaultTransport => []
    case BreakerLayer(next, _) => [Breaker] + Layers(next)
    case LoggingLayer(next) => [Logging] + Layers(next)
  }

  /** `NewClient`: the default transport, wrapped by the breaker if one is configured, then by logging if enabled. */
  method NewClient(cfg: Config) returns (transport: Transport, err: Option<string>)
    ensures err == None
    ensures Layers(transport) == (if cfg.log then [Logging] else []) + (if Wanted(cfg.breaker) then [Breaker] else [])
    ensures Wanted(cfg.breaker) ==> BreakerSettings(transport) == ConfigureCircuitBreaker(cfg.breaker).0
  {
    transport := DefaultTransport;

    var cb, e := ConfigureCircuitBreaker(cfg.breaker).0, ConfigureCircuitBreaker(cfg.breaker).1;
    if e.Some? {
      return transport, e;
    }
    if cb.Some? {
      transport := BreakerLayer(transport, cb.value);
    }

    if cfg.log {
      transport := LoggingLayer(transport);
    }
    err := None;
  }

  /** The settings of the outermost breaker layer, if any. */
  function BreakerSettings(t: Transport): Option<Settings>
  {
    match t
    case DefaultTransport => None
    case BreakerLayer(_, s) => Some(s)
    case LoggingLayer(next) => BreakerSettings(next)
  }

  /** A transport with both layers has logging outside the breaker, and the breaker directly over the default transport. */
  lemma LoggingOutsideBreaker(t: Transport)
    requires Layers(t) == [Logging, Breaker]
    ensures t.LoggingLayer? && t.next.BreakerLayer? && t.next.next == DefaultTransport
  {
    assert t.LoggingLayer? by { assert Layers(t)[0] == Logging; }
    assert Layers(t) == [Logging] + Layers(t.next);
    assert Layers(t.next) == Layers(t)[1..] == [Breaker];
    assert t.next.BreakerLayer? by { assert Layers(t.next)[0] == Breaker; }
    assert Layers(t.next) == [Breaker] + Layers(t.next.next);
  }
}
