/** The transformer: builds the VariationsSeed message from a document.
    The functions say what the message is; the methods build it the way
    the source does, one field and one append at a time. */
module Transform {
  import opened Wrappers
  import Doc = SeedData
  import Wire = VariationsSeed
  import opened Tables
  import opened Traversal

  /** The KeyError a table lookup raises for a name it has no entry for. */
  datatype LookupError = UnknownChannel(name: string) | UnknownPlatform(name: string)

  function LookupChannel(name: string): Result<Wire.Channel, LookupError> {
    if name in SupportedChannels then Ok(SupportedChannels[name]) else Err(UnknownChannel(name))
  }

  function LookupPlatform(name: string): Result<Wire.Platform, LookupError> {
    if name in SupportedPlatforms then Ok(SupportedPlatforms[name]) else Err(UnknownPlatform(name))
  }

  function ParamMessage(p: Doc.Parameter): Wire.Param {
    Wire.Param(p.name, p.value)
  }

  function ParamMessages(ps: seq<Doc.Parameter>): seq<Wire.Param> {
    seq(|ps|, k requires 0 <= k < |ps| => ParamMessage(ps[k]))
  }

  /** The feature association sub-message: present only when some feature was appended. */
  function FeatureMessage(fa: Option<Doc.FeatureAssociation>): Option<Wire.FeatureAssociation> {
    match fa
    case None => None
    case Some(a) =>
      var m := Wire.FeatureAssociation(OrEmpty(a.enableFeature), OrEmpty(a.disableFeature));
      if m == Wire.EmptyFeatureAssociation then None else Some(m)
  }

  function ExperimentMessage(e: Doc.Experiment): Wire.Experiment {
    Wire.Experiment(e.name, e.probabilityWeight, ParamMessages(OrEmpty(e.parameters)), FeatureMessage(e.featureAssociation))
  }

  function ExperimentMessages(exps: seq<Doc.Experiment>): seq<Wire.Experiment> {
    seq(|exps|, k requires 0 <= k < |exps| => ExperimentMessage(exps[k]))
  }

  /** The filter sub-message: channels first, then platforms, then the
      optional fields; present only when some field was set. */
  function FilterMessage(f: Doc.Filter): Result<Option<Wire.Filter>, LookupError> {
    match Traverse(LookupChannel, f.channel)
    case Err(e) => Err(e)
    case Ok(channels) =>
      match Traverse(LookupPlatform, f.platform)
      case Err(e) => Err(e)
      case Ok(platforms) =>
        var m := Wire.Filter(channels, platforms, OrEmpty(f.country),
                             f.minVersion, f.maxVersion, f.minOsVersion, f.maxOsVersion);
        Ok(if m == Wire.EmptyFilter then None else Some(m))
  }

  function StudyMessage(s: Doc.Study): Result<Wire.Study, LookupError> {
    match FilterMessage(s.filter)
    case Err(e) => Err(e)
    case Ok(filter) =>
      Ok(Wire.Study(s.name, Wire.Permanent, Wire.ActivateOnStartup, ExperimentMessages(s.experiments), filter))
  }

  /** The whole message, or the lookup error of the first unknown name in scan order. */
  function SeedMessage(doc: Doc.SeedDocument, serialNumber: string): Result<Wire.Seed, LookupError> {
    match Traverse(StudyMessage, doc.studies)
    case Err(e) => Err(e)
    case Ok(studies) => Ok(Wire.Seed(doc.version, serialNumber, studies))
  }

  /** Appends every element of src to dst, in order. */
  method AppendEach<T>(dst: seq<T>, src: seq<T>) returns (r: seq<T>)
    ensures r == dst + src
  {
    r := dst;
    for i := 0 to |src|
      invariant r == dst + src[..i]
    {
      assert src[..i + 1] == src[..i] + [src[i]];
      r := r + [src[i]];
    }
    assert src[..|src|] == src;
  }

  method BuildExperiment(e: Doc.Experiment) returns (m: Wire.Experiment)
    ensures m == ExperimentMessage(e)
  {
    var params: seq<Wire.Param> := [];
    if e.parameters.Some? {
      var ps := e.parameters.value;
      for k := 0 to |ps|
        invariant |params| == k
        invariant forall j :: 0 <= j < k ==> params[j] == Wire.Param(ps[j].name, ps[j].value)
      {
        params := params + [Wire.Param(ps[k].name, ps[k].value)];
      }
    }
    assert params == ParamMessages(OrEmpty(e.parameters));

    var features := Wire.EmptyFeatureAssociation;
    var featuresSet := false;
    if e.featureAssociation.Some? {
      var fa := e.featureAssociation.value;
      if fa.enableFeature.Some? {
        var enable := AppendEach(features.enableFeature, fa.enableFeature.value);
        features := features.(enableFeature := enable);
        if enable != [] { featuresSet := true; }
      }
      if fa.disableFeature.Some? {
        var disable := AppendEach(features.disableFeature, fa.disableFeature.value);
        features := features.(disableFeature := disable);
        if disable != [] { featuresSet := true; }
      }
      assert features == Wire.FeatureAssociation(OrEmpty(fa.enableFeature), OrEmpty(fa.disableFeature));
      assert featuresSet <==> features != Wire.EmptyFeatureAssociation;
    }

    assert (if featuresSet then Some(features) else None) == FeatureMessage(e.featureAssociation);
    m := Wire.Experiment(e.name, e.probabilityWeight, params, if featuresSet then Some(features) else None);
  }

  method BuildFilter(f: Doc.Filter) returns (r: Result<Option<Wire.Filter>, LookupError>)
    ensures r == FilterMessage(f)
  {
    var filter := Wire.EmptyFilter;
    var filterSet := false;

    var channels := TraverseEach(LookupChannel, f.channel);
    if channels.Err? {
      return Err(channels.error);
    }
    filter := filter.(channel := channels.value);
    if channels.value != [] { filterSet := true; }

    var platforms := TraverseEach(LookupPlatform, f.platform);
    if platforms.Err? {
      return Err(platforms.error);
    }
    filter := filter.(platform := platforms.value);
    if platforms.value != [] { filterSet := true; }

    if f.country.Some? {
      var country := AppendEach(filter.country, f.country.value);
      filter := filter.(country := country);
      if country != [] { filterSet := true; }
    }
    if f.minVersion.Some? {
      filter := filter.(minVersion := f.minVersion);
      filterSet := true;
    }
    if f.maxVersion.Some? {
      filter := filter.(maxVersion := f.maxVersion);
      filterSet := true;
    }
    if f.minOsVersion.Some? {
      filter := filter.(minOsVersion := f.minOsVersion);
      filterSet := true;
    }
    if f.maxOsVersion.Some? {
      filter := filter.(maxOsVersion := f.maxOsVersion);
      filterSet := true;
    }

    assert filter == Wire.Filter(channels.value, platforms.value, OrEmpty(f.country),
                                 f.minVersion, f.maxVersion, f.minOsVersion, f.maxOsVersion);
    assert filterSet <==> filter != Wire.EmptyFilter;
    r := Ok(if filterSet then Some(filter) else None);
  }

  method BuildStudy(s: Doc.Study) returns (r: Result<Wire.Study, LookupError>)
    ensures r == StudyMessage(s)
  {
    var experiments: seq<Wire.Experiment> := [];
    for j := 0 to |s.experiments|
      invariant |experiments| == j
      invariant forall k :: 0 <= k < j ==> experiments[k] == ExperimentMessage(s.experiments[k])
    {
      var m := BuildExperiment(s.experiments[j]);
      experiments := experiments + [m];
    }

    var filter := BuildFilter(s.filter);
    if filter.Err? {
      return Err(filter.error);
    }
    assert experiments == ExperimentMessages(s.experiments);
    r := Ok(Wire.Study(s.name, Wire.Permanent, Wire.ActivateOnStartup, experiments, filter.value));
  }

  /** make_variations_seed_message, with the serial number passed in. */
  method MakeVariationsSeedMessage(doc: Doc.SeedDocument, serialNumber: string)
    returns (r: Result<Wire.Seed, LookupError>)
    ensures r == SeedMessage(doc, serialNumber)
  {
    var studies: seq<Wire.Study> := [];
    for i := 0 to |doc.studies|
      invariant |studies| == i
      invariant forall k :: 0 <= k < i ==> StudyMessage(doc.studies[k]) == Ok(studies[k])
    {
      var study := BuildStudy(doc.studies[i]);
      if study.Err? {
        TraverseFirstErr(StudyMessage, doc.studies, i);
        return Err(study.error);
      }
      studies := studies + [study.value];
    }
    TraverseOk(StudyMessage, doc.studies);
    assert Traverse(StudyMessage, doc.studies).value == studies;
    r := Ok(Wire.Seed(doc.version, serialNumber, studies));
  }
}
