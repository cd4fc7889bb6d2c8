/** Module-level constants of the serializer: the weight total, the
    validator's allow-lists and the transformer's enum tables. */
module Tables {
  import Wire = VariationsSeed

  const TotalProba: int := 100

  /** Platform names the validator accepts. */
  const Platforms: set<string> := {"WINDOWS", "MAC", "LINUX", "IOS", "ANDROID"}

  /** Channel names the validator accepts. */
  const Channels: set<string> := {"UNKNOWN", "NIGHTLY", "BETA", "RELEASE"}

  /** Channel names the transformer can map, with their wire enumerators. */
  const SupportedChannels: map<string, Wire.Channel> :=
    map["NIGHTLY" := Wire.Canary, "DEV" := Wire.Dev, "BETA" := Wire.Beta, "RELEASE" := Wire.Stable]

  /** Platform names the transformer can map (a table the source rebuilds on every iteration). */
  const SupportedPlatforms: map<string, Wire.Platform> :=
    map["WINDOWS" := Wire.PlatformWindows, "MAC" := Wire.PlatformMac, "LINUX" := Wire.PlatformLinux,
        "IOS" := Wire.PlatformIos, "ANDROID" := Wire.PlatformAndroid]

  /** The validator's channel allow-list and the transformer's channel table
      differ in exactly two names: UNKNOWN is accepted but cannot be mapped,
      DEV can be mapped but is rejected. */
  lemma ChannelTablesDisagree()
    ensures Channels - SupportedChannels.Keys == {"UNKNOWN"}
    ensures SupportedChannels.Keys - Channels == {"DEV"}
  {
  }

  /** For platforms the two tables agree. */
  lemma PlatformTablesAgree()
    ensures SupportedPlatforms.Keys == Platforms
  {
  }
}
