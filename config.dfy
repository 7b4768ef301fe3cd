/** The parsed configuration shapes (types/config.go). Parsing itself is not modelled. */
module Config {
  import opened Wrappers

  /** A time.Duration; only ever passed through, never compared. */
  type Duration = int

  /** One backend instance: its base URL, its platform affinities and whether it may serve as a fallback. */
  datatype ConfigRSSHub = ConfigRSSHub(url: string, platforms: seq<string>, fallback: bool)

  datatype ConfigTranslate = ConfigTranslate(provider: string, defaultLang: string, settings: string, hostBase: string)

  /** Per-platform header overrides for the image relay; None stands for nil. */
  datatype ConfigImageProxyRule = ConfigImageProxyRule(origin: Option<string>, referer: Option<string>)

  datatype ConfigImageProxy = ConfigImageProxy(path: string, rules: map<string, ConfigImageProxyRule>)

  /** The parts of the system settings the core reads: the Redis key prefix, the cache TTL and the backend timeout. */
  datatype ConfigSystem = ConfigSystem(redisPrefix: string, cacheExpire: Duration, requestTimeout: Duration)

  datatype Config = Config(
    system: ConfigSystem,
    rsshub: seq<ConfigRSSHub>,
    translate: Option<ConfigTranslate>,
    imageProxy: Option<ConfigImageProxy>)
}
