/** The experiment-configuration document as it is loaded from JSON.
    Keys the code reads unconditionally (`name`, `experiments`, `filter`,
    `channel`, `platform`, ...) are plain fields, so a document missing one of
    them cannot be written down; keys it first tests with `in` are `Option`s. */
module SeedData {
  import opened Wrappers

  datatype Parameter = Parameter(name: string, value: string)

  datatype FeatureAssociation = FeatureAssociation(
    enableFeature: Option<seq<string>>,
    disableFeature: Option<seq<string>>)

  datatype Experiment = Experiment(
    name: string,
    probabilityWeight: int,
    parameters: Option<seq<Parameter>>,
    featureAssociation: Option<FeatureAssociation>)

  datatype Filter = Filter(
    channel: seq<string>,
    platform: seq<string>,
    country: Option<seq<string>>,
    minVersion: Option<string>,
    maxVersion: Option<string>,
    minOsVersion: Option<string>,
    maxOsVersion: Option<string>)

  datatype Study = Study(name: string, experiments: seq<Experiment>, filter: Filter)

  datatype SeedDocument = SeedDocument(version: int, studies: seq<Study>)
}
