/** The application settings the core reads, as an immutable record. */
module Config {
  import opened Outcomes

  datatype Settings = Settings(
    aiProvider: string,
    aiModel: string,
    aiPrompt: string,
    /** The key for the AI vendor's API (`ai_api_key`); `None` when not configured. */
    aiApiKey: Option<string>,
    /** The key clients must send in the X-API-KEY header (`api_key`). */
    apiKey: Option<string>,
    maxImageDimension: int,
    highRiskDimensionThreshold: int,
    vipsCacheMax: int,
    maxImageSizeMb: int,
    maxRequestSizeMb: int)

  /** A Python truth test on an optional secret: missing and empty both fail it. */
  predicate IsSet(key: Option<string>) {
    key.Some? && key.value != ""
  }
}
