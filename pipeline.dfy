/** The control flow of main (validate, then build the message) and the
    consequences of the validator and the transformer using two different
    channel tables. */
module Pipeline {
  import opened Wrappers
  import Doc = SeedData
  import Wire = VariationsSeed
  import opened Tables
  import opened Traversal
  import opened Validation
  import opened Transform
  import opened TransformProperties

  /** How a run ends: the document is rejected (main returns -1), a table
      lookup raises, or the message is ready for the encoder. */
  datatype Outcome = Invalid(rejection: Rejection) | LookupFailed(error: LookupError) | Serialized(seed: Wire.Seed)

  /** main as written: validate against Channels, then build the message. */
  method Run(doc: Doc.SeedDocument, serialNumber: string) returns (o: Outcome)
    ensures o.Invalid? <==> exists k :: 0 <= k < |doc.studies| && !StudyValid(doc.studies[k], Channels)
    ensures o.Invalid? ==> FirstRejection(doc.studies, Channels) == Some(o.rejection)
    ensures o.LookupFailed? ==> SeedMessage(doc, serialNumber) == Err(o.error)
    ensures o.Serialized? ==> SeedMessage(doc, serialNumber) == Ok(o.seed)
  {
    var ok, rejection := Validate(doc);
    if !ok {
      return Invalid(rejection.value);
    }
    var message := MakeVariationsSeedMessage(doc, serialNumber);
    match message
    case Err(e) => o := LookupFailed(e);
    case Ok(seed) => o := Serialized(seed);
  }

  /** The validator with its channel allow-list taken from the transformer's table. */
  method ValidateUnified(doc: Doc.SeedDocument) returns (ok: bool, rejection: Option<Rejection>)
    ensures rejection == FirstRejection(doc.studies, SupportedChannels.Keys)
    ensures ok <==> rejection == None
    ensures ok <==> forall k :: 0 <= k < |doc.studies| ==> StudyValid(doc.studies[k], SupportedChannels.Keys)
  {
    ok, rejection := ValidateAgainst(doc, SupportedChannels.Keys);
  }

  /** Acceptance under the unified allow-list guarantees that every lookup succeeds. */
  lemma UnifiedAcceptanceSuffices(doc: Doc.SeedDocument, serialNumber: string)
    requires FirstRejection(doc.studies, SupportedChannels.Keys) == None
    ensures SeedMessage(doc, serialNumber).Ok?
  {
    AcceptedIffEveryStudyValid(doc.studies, SupportedChannels.Keys);
    PlatformTablesAgree();
    SeedMessageOkIff(doc, serialNumber);
  }

  /** main with the unified validator: a run never ends in a lookup error. */
  method RunUnified(doc: Doc.SeedDocument, serialNumber: string) returns (o: Outcome)
    ensures o.Invalid? <==> exists k :: 0 <= k < |doc.studies| && !StudyValid(doc.studies[k], SupportedChannels.Keys)
    ensures o.Invalid? ==> FirstRejection(doc.studies, SupportedChannels.Keys) == Some(o.rejection)
    ensures !o.LookupFailed?
    ensures o.Serialized? ==> SeedMessage(doc, serialNumber) == Ok(o.seed)
  {
    var ok, rejection := ValidateUnified(doc);
    if !ok {
      return Invalid(rejection.value);
    }
    UnifiedAcceptanceSuffices(doc, serialNumber);
    var message := MakeVariationsSeedMessage(doc, serialNumber);
    o := Serialized(message.value);
  }

  /** For a document the validator as written accepts, building the message
      succeeds exactly when no study targets the UNKNOWN channel. */
  lemma AcceptedBuildsIffNoUnknownChannel(doc: Doc.SeedDocument, serialNumber: string)
    requires FirstRejection(doc.studies, Channels) == None
    ensures SeedMessage(doc, serialNumber).Ok? <==>
              forall k :: 0 <= k < |doc.studies| ==> "UNKNOWN" !in doc.studies[k].filter.channel
  {
    AcceptedIffEveryStudyValid(doc.studies, Channels);
    PlatformTablesAgree();
    SeedMessageOkIff(doc, serialNumber);
  }

  /** A document with one study and no optional keys. */
  function OneStudy(name: string, experiments: seq<Doc.Experiment>, channel: seq<string>, platform: seq<string>): Doc.SeedDocument {
    Doc.SeedDocument(1, [Doc.Study(name, experiments, Doc.Filter(channel, platform, None, None, None, None, None))])
  }

  function Plain(name: string, weight: int): Doc.Experiment {
    Doc.Experiment(name, weight, None, None)
  }

  /** A study targeting UNKNOWN passes validation, and the channel lookup then fails on it. */
  lemma AcceptedYetUnmappable(serialNumber: string)
    ensures var doc := OneStudy("Study1", [Plain("A", 100)], ["UNKNOWN"], ["WINDOWS"]);
            && FirstRejection(doc.studies, Channels) == None
            && SeedMessage(doc, serialNumber) == Err(UnknownChannel("UNKNOWN"))
  {
  }

  /** A study targeting DEV is rejected by the validator as written,
      although the transformer could map it. */
  lemma DevRejectedYetMappable(serialNumber: string)
    ensures var doc := OneStudy("Study1", [Plain("A", 100)], ["DEV"], ["WINDOWS"]);
            && FirstRejection(doc.studies, Channels) == Some(Rejection(0, UnsupportedChannel))
            && SeedMessage(doc, serialNumber).Ok?
  {
    var doc := OneStudy("Study1", [Plain("A", 100)], ["DEV"], ["WINDOWS"]);
    assert TotalWeight(doc.studies[0].experiments) == 100 by {
      assert doc.studies[0].experiments[..0] == [];
    }
    assert "DEV" !in Channels;
    assert !StudyValid(doc.studies[0], Channels);
    FirstFailureIsReported(doc.studies, Channels, 0);
    SeedMessageOkIff(doc, serialNumber);
  }

  /** Two experiments weighted 60 and 40, on RELEASE and WINDOWS: accepted,
      and the message carries the study with STABLE and PLATFORM_WINDOWS. */
  lemma BalancedStudyAccepted(serialNumber: string)
    ensures var doc := OneStudy("Study1", [Plain("A", 60), Plain("B", 40)], ["RELEASE"], ["WINDOWS"]);
            && FirstRejection(doc.studies, Channels) == None
            && SeedMessage(doc, serialNumber) ==
                 Ok(Wire.Seed(1, serialNumber, [
                   Wire.Study("Study1", Wire.Permanent, Wire.ActivateOnStartup,
                              [Wire.Experiment("A", 60, [], None), Wire.Experiment("B", 40, [], None)],
                              Some(Wire.Filter([Wire.Stable], [Wire.PlatformWindows], [], None, None, None, None)))]))
  {
    var doc := OneStudy("Study1", [Plain("A", 60), Plain("B", 40)], ["RELEASE"], ["WINDOWS"]);
    var exps := doc.studies[0].experiments;
    assert TotalWeight(exps) == 100 by {
      assert exps[..1][..0] == [];
      assert exps[..1] == [Plain("A", 60)];
    }
    assert FirstRejection(doc.studies, Channels) == None by {
      AcceptedIffEveryStudyValid(doc.studies, Channels);
    }
    var f := doc.studies[0].filter;
    assert LookupChannel(f.channel[0]) == Ok(Wire.Stable);
    assert LookupPlatform(f.platform[0]) == Ok(Wire.PlatformWindows);
    FilterMessageOkIff(f);
    var m := FilterMessage(f).value;
    FilterNamesMapped(f, m);
    FilterOptionalFields(f, m);
    var out := m.GetOr(Wire.EmptyFilter);
    assert out.channel == [Wire.Stable];
    assert out.platform == [Wire.PlatformWindows];
    assert m == Some(Wire.Filter([Wire.Stable], [Wire.PlatformWindows], [], None, None, None, None));
    assert ParamMessages([]) == [];
    assert ExperimentMessage(exps[0]) == Wire.Experiment("A", 60, [], None);
    assert ExperimentMessage(exps[1]) == Wire.Experiment("B", 40, [], None);
    assert ExperimentMessages(exps) == [Wire.Experiment("A", 60, [], None), Wire.Experiment("B", 40, [], None)];
    SeedMessageOkIff(doc, serialNumber);
    var seed := SeedMessage(doc, serialNumber).value;
    SeedMessageStudies(doc, serialNumber, seed);
    assert seed.study == [StudyMessage(doc.studies[0]).value];
  }

  /** The same study weighted 60 and 30 is rejected as a weight mismatch of 90. */
  lemma UnderweightStudyRejected()
    ensures var doc := OneStudy("Study1", [Plain("A", 60), Plain("B", 30)], ["RELEASE"], ["WINDOWS"]);
            FirstRejection(doc.studies, Channels) == Some(Rejection(0, WeightMismatch(90)))
  {
    var doc := OneStudy("Study1", [Plain("A", 60), Plain("B", 30)], ["RELEASE"], ["WINDOWS"]);
    var exps := doc.studies[0].experiments;
    assert TotalWeight(exps) == 90 by {
      assert exps[..1][..0] == [];
      assert exps[..1] == [Plain("A", 60)];
    }
    WeightMismatchEndsScan(doc.studies, Channels, 0);
  }
}
