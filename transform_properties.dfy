/** What the message produced by the transformer says about the document it came from. */
module TransformProperties {
  import opened Wrappers
  import Doc = SeedData
  import Wire = VariationsSeed
  import opened Tables
  import opened Traversal
  import opened Validation
  import opened Transform

  /** The running sum of the output experiments' probability weights. */
  function WireTotalWeight(exps: seq<Wire.Experiment>): int
    decreases |exps|
  {
    if |exps| == 0 then 0
    else WireTotalWeight(exps[..|exps| - 1]) + exps[|exps| - 1].probabilityWeight
  }

  /** The output has one study per input study, in the same order and with
      the same name, each fixed to PERMANENT and ACTIVATE_ON_STARTUP; the
      version and the serial number are copied. */
  lemma SeedMessageStudies(doc: Doc.SeedDocument, serialNumber: string, seed: Wire.Seed)
    requires SeedMessage(doc, serialNumber) == Ok(seed)
    ensures seed.version == doc.version && seed.serialNumber == serialNumber
    ensures |seed.study| == |doc.studies|
    ensures forall i :: 0 <= i < |doc.studies| ==> StudyMessage(doc.studies[i]) == Ok(seed.study[i])
    ensures forall i :: 0 <= i < |seed.study| ==>
              && seed.study[i].name == doc.studies[i].name
              && seed.study[i].consistency == Wire.Permanent
              && seed.study[i].activationType == Wire.ActivateOnStartup
  {
    TraverseOk(StudyMessage, doc.studies);
  }

  /** A study's output experiments match its input experiments one for one,
      in order, with equal name and probability weight. */
  lemma StudyMessageExperiments(s: Doc.Study, m: Wire.Study)
    requires StudyMessage(s) == Ok(m)
    ensures |m.experiment| == |s.experiments|
    ensures forall j :: 0 <= j < |s.experiments| ==>
              && m.experiment[j].name == s.experiments[j].name
              && m.experiment[j].probabilityWeight == s.experiments[j].probabilityWeight
              && m.experiment[j] == ExperimentMessage(s.experiments[j])
  {
  }

  /** Copying the experiments keeps the weight total. */
  lemma {:induction false} WeightsPreserved(exps: seq<Doc.Experiment>)
    ensures WireTotalWeight(ExperimentMessages(exps)) == TotalWeight(exps)
    decreases |exps|
  {
    if |exps| > 0 {
      var init := exps[..|exps| - 1];
      WeightsPreserved(init);
      assert ExperimentMessages(exps)[..|exps| - 1] == ExperimentMessages(init);
    }
  }

  /** For an accepted document, every output study's weights total 100,
      whichever channel allow-list accepted it. */
  lemma AcceptedWeightsTotal100(doc: Doc.SeedDocument, allowedChannels: set<string>, serialNumber: string, seed: Wire.Seed)
    requires FirstRejection(doc.studies, allowedChannels) == None
    requires SeedMessage(doc, serialNumber) == Ok(seed)
    ensures forall i :: 0 <= i < |seed.study| ==> WireTotalWeight(seed.study[i].experiment) == TotalProba
  {
    AcceptedIffEveryStudyValid(doc.studies, allowedChannels);
    SeedMessageStudies(doc, serialNumber, seed);
    forall i | 0 <= i < |seed.study|
      ensures WireTotalWeight(seed.study[i].experiment) == TotalProba
    {
      WeightsPreserved(doc.studies[i].experiments);
    }
  }

  /** Parameters are copied in order when the key is present, and the list is empty otherwise. */
  lemma ParamsCopied(e: Doc.Experiment)
    ensures e.parameters.None? ==> ExperimentMessage(e).param == []
    ensures e.parameters.Some? ==>
              && |ExperimentMessage(e).param| == |e.parameters.value|
              && forall k :: 0 <= k < |e.parameters.value| ==>
                   && ExperimentMessage(e).param[k].name == e.parameters.value[k].name
                   && ExperimentMessage(e).param[k].value == e.parameters.value[k].value
  {
  }

  /** The enable and disable lists are copied in order when their keys are
      present and empty otherwise; the sub-message is set exactly when one
      of them is non-empty. */
  lemma FeaturesCopied(e: Doc.Experiment)
    ensures var out := Wire.FeaturesOf(ExperimentMessage(e));
            && out.enableFeature == (if e.featureAssociation.Some? then OrEmpty(e.featureAssociation.value.enableFeature) else [])
            && out.disableFeature == (if e.featureAssociation.Some? then OrEmpty(e.featureAssociation.value.disableFeature) else [])
    ensures ExperimentMessage(e).featureAssociation.Some? <==>
              (Wire.FeaturesOf(ExperimentMessage(e)).enableFeature != [] ||
               Wire.FeaturesOf(ExperimentMessage(e)).disableFeature != [])
  {
  }

  /** A filter can be built exactly when every channel and every platform name has a table entry. */
  lemma FilterMessageOkIff(f: Doc.Filter)
    ensures FilterMessage(f).Ok? <==>
              (forall c :: c in f.channel ==> c in SupportedChannels) &&
              (forall p :: p in f.platform ==> p in SupportedPlatforms)
  {
    TraverseOk(LookupChannel, f.channel);
    TraverseOk(LookupPlatform, f.platform);
    assert (forall i :: 0 <= i < |f.channel| ==> LookupChannel(f.channel[i]).Ok?) <==>
           (forall c :: c in f.channel ==> c in SupportedChannels);
    assert (forall i :: 0 <= i < |f.platform| ==> LookupPlatform(f.platform[i]).Ok?) <==>
           (forall p :: p in f.platform ==> p in SupportedPlatforms);
  }

  /** The first channel without a table entry is the one reported, before
      any platform is looked up. */
  lemma FirstUnknownChannelReported(f: Doc.Filter, k: nat)
    requires k < |f.channel|
    requires forall j :: 0 <= j < k ==> f.channel[j] in SupportedChannels
    requires f.channel[k] !in SupportedChannels
    ensures FilterMessage(f) == Err(UnknownChannel(f.channel[k]))
  {
    TraverseFirstErr(LookupChannel, f.channel, k);
  }

  /** With every channel known, the first platform without a table entry is the one reported. */
  lemma FirstUnknownPlatformReported(f: Doc.Filter, k: nat)
    requires forall c :: c in f.channel ==> c in SupportedChannels
    requires k < |f.platform|
    requires forall j :: 0 <= j < k ==> f.platform[j] in SupportedPlatforms
    requires f.platform[k] !in SupportedPlatforms
    ensures FilterMessage(f) == Err(UnknownPlatform(f.platform[k]))
  {
    TraverseOk(LookupChannel, f.channel);
    TraverseFirstErr(LookupPlatform, f.platform, k);
  }

  /** Channel and platform lists keep their length and order, and element i
      of the output is the table image of element i of the input. */
  lemma FilterNamesMapped(f: Doc.Filter, m: Option<Wire.Filter>)
    requires FilterMessage(f) == Ok(m)
    ensures var out := m.GetOr(Wire.EmptyFilter);
            && |out.channel| == |f.channel|
            && (forall k :: 0 <= k < |f.channel| ==>
                  f.channel[k] in SupportedChannels && out.channel[k] == SupportedChannels[f.channel[k]])
            && |out.platform| == |f.platform|
            && (forall k :: 0 <= k < |f.platform| ==>
                  f.platform[k] in SupportedPlatforms && out.platform[k] == SupportedPlatforms[f.platform[k]])
  {
    TraverseOk(LookupChannel, f.channel);
    TraverseOk(LookupPlatform, f.platform);
  }

  /** Each optional field is set in the output exactly when its key is
      present, and then with the input's value; country keeps its order.
      The filter itself is set exactly when some field of it was. */
  lemma FilterOptionalFields(f: Doc.Filter, m: Option<Wire.Filter>)
    requires FilterMessage(f) == Ok(m)
    ensures var out := m.GetOr(Wire.EmptyFilter);
            && out.country == OrEmpty(f.country)
            && out.minVersion == f.minVersion
            && out.maxVersion == f.maxVersion
            && out.minOsVersion == f.minOsVersion
            && out.maxOsVersion == f.maxOsVersion
    ensures m.Some? <==>
              (|f.channel| > 0 || |f.platform| > 0 || OrEmpty(f.country) != [] ||
               f.minVersion.Some? || f.maxVersion.Some? || f.minOsVersion.Some? || f.maxOsVersion.Some?)
  {
  }

  /** The message can be built exactly when every channel and platform name
      of every study has a table entry. */
  lemma SeedMessageOkIff(doc: Doc.SeedDocument, serialNumber: string)
    ensures SeedMessage(doc, serialNumber).Ok? <==>
              forall i :: 0 <= i < |doc.studies| ==>
                (forall c :: c in doc.studies[i].filter.channel ==> c in SupportedChannels) &&
                (forall p :: p in doc.studies[i].filter.platform ==> p in SupportedPlatforms)
  {
    TraverseOk(StudyMessage, doc.studies);
    forall i | 0 <= i < |doc.studies| {
      FilterMessageOkIff(doc.studies[i].filter);
    }
  }

  /** The serial number is the only part of the message it influences. */
  lemma SerialNumberOnlyTagged(doc: Doc.SeedDocument, serial1: string, serial2: string)
    ensures SeedMessage(doc, serial1).Ok? <==> SeedMessage(doc, serial2).Ok?
    ensures SeedMessage(doc, serial1).Ok? ==>
              SeedMessage(doc, serial1).value.(serialNumber := serial2) == SeedMessage(doc, serial2).value
    ensures SeedMessage(doc, serial1).Err? ==> SeedMessage(doc, serial1).error == SeedMessage(doc, serial2).error
  {
  }
}
