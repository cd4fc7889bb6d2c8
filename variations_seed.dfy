/** The VariationsSeed message tree that the protobuf encoder serializes.
    Enum fields are the schema's enumerators, not their numeric codes. A
    sub-message (`filter`, `feature_association`) is an `Option`: protobuf
    marks it present only once one of its fields has been assigned or
    appended to; reading an absent one yields the default instance
    (EmptyFilter, or EmptyFeatureAssociation as FeaturesOf gives it). */
module VariationsSeed {
  import opened Wrappers

  datatype Consistency = Session | Permanent

  datatype ActivationType = ActivateOnQuery | ActivateOnStartup

  datatype Channel = Canary | Dev | Beta | Stable

  datatype Platform = PlatformWindows | PlatformMac | PlatformLinux | PlatformIos | PlatformAndroid

  datatype Param = Param(name: string, value: string)

  datatype FeatureAssociation = FeatureAssociation(enableFeature: seq<string>, disableFeature: seq<string>)

  datatype Experiment = Experiment(
    name: string,
    probabilityWeight: int,
    param: seq<Param>,
    featureAssociation: Option<FeatureAssociation>)

  datatype Filter = Filter(
    channel: seq<Channel>,
    platform: seq<Platform>,
    country: seq<string>,
    minVersion: Option<string>,
    maxVersion: Option<string>,
    minOsVersion: Option<string>,
    maxOsVersion: Option<string>)

  datatype Study = Study(
    name: string,
    consistency: Consistency,
    activationType: ActivationType,
    experiment: seq<Experiment>,
    filter: Option<Filter>)

  datatype Seed = Seed(version: int, serialNumber: string, study: seq<Study>)

  const EmptyFeatureAssociation: FeatureAssociation := FeatureAssociation([], [])

  const EmptyFilter: Filter := Filter([], [], [], None, None, None, None)

  /** The feature association as a reader of the message sees it. */
  function FeaturesOf(e: Experiment): FeatureAssociation {
    e.featureAssociation.GetOr(EmptyFeatureAssociation)
  }
}
