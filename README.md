# brave-variations seed serializer — a verified model

`seed/serialize.py` turns a JSON experiment-configuration document (studies,
weighted experiments, targeting filters) into a `VariationsSeed` protobuf
message. Before that, it validates the document. This project models both steps
and proves what they guarantee:

- **Validator** (`validate`). It walks the studies in document order. It rejects
  the document at the first study that fails one of three checks, made in this order:
  - the experiments' `probability_weight` values do not total `TOTAL_PROBA` (100);
  - the filter's channel set is not a subset of `CHANNELS`;
  - the filter's platform set is not a subset of `PLATFORMS`.
- **Transformer** (`make_variations_seed_message`). It copies the version and a
  serial number. It fixes every study to `PERMANENT` / `ACTIVATE_ON_STARTUP`. It
  copies experiments, parameters and feature lists in order. It maps channel
  names through `SUPPORTED_CHANNELS` and platform names through the inline
  platform table. It copies the optional filter fields only when their keys are present.

Layout, one module per file:

- `wrappers.dfy` (`Wrappers`): `Option`, `Result`, `OrEmpty`.
- `seed_data.dfy` (`SeedData`): the input document. A key the code reads
  unconditionally is a plain field. A key it tests with `in` is an `Option`.
- `variations_seed.dfy` (`VariationsSeed`): the output message tree. A
  sub-message (`filter`, `feature_association`) is an `Option`, because protobuf
  marks it present only once one of its fields is assigned or appended to.
  A reader of an absent sub-message gets the default instance: `EmptyFilter`
  for the filter, and `FeaturesOf` for the feature association.
- `tables.dfy` (`Tables`): `TOTAL_PROBA`, `PLATFORMS`, `CHANNELS`,
  `SUPPORTED_CHANNELS` and the platform table, as `set`s and `map`s.
- `traversal.dfy` (`Traversal`): `Traverse` maps a fallible lookup over a list
  and stops at the first failure. `TraverseEach` is the loop that computes it.
  Every `for … : out.append(TABLE[x])` loop of the source has this shape,
  including the loop that raises `KeyError` on an unknown name.
- `validation.dfy` (`Validation`): the validator. The method `ValidateAgainst`
  holds the nested loops, the running total and the early returns. The function
  `FirstRejection` is its specification.
- `transform.dfy` (`Transform`): the transformer, in two forms.
  - Specification functions: `SeedMessage`, `StudyMessage`, `FilterMessage`, `ExperimentMessage`.
  - Methods that build the message one field and one append at a time, as the
    source does: `MakeVariationsSeedMessage`, `BuildStudy`, `BuildFilter`, `BuildExperiment`.
- `transform_properties.dfy` (`TransformProperties`): what the output says about the input.
- `pipeline.dfy` (`Pipeline`): the control flow of `main` (validate, then
  transform), the mismatch between the two channel tables, and two concrete documents.

Modelling choices:

- The validator's three `print` diagnostics are modelled as a returned
  `Rejection`: the index of the failing study and the reason. Only the reason
  comes from the source. The printed text says only which check failed: line 36
  prints the constant `TOTAL_PROBA`, and lines 40 and 44 print the allow-lists.
  The study index and the actual total in `WeightMismatch(total)` are computed
  by the model from the input; the source prints neither and returns only `False`.
- The `KeyError` that `SUPPORTED_CHANNELS[channel]` or the platform table raises
  is modelled as `Err(UnknownChannel(name))` or `Err(UnknownPlatform(name))`.
  The error names the first unknown name in scan order.
- The serial number is a parameter.
- The validator takes its channel allow-list as a parameter. `Validate` passes
  `CHANNELS`, as the source does. `ValidateUnified` passes the keys of
  `SUPPORTED_CHANNELS`; it is the corrected version described under Findings.

In three places the model follows the code as written rather than a cleaner design:
- `validate` returns a boolean and stops at the first failing study.
- The validator and the transformer consult two different channel tables.
- An unmapped name makes the transformer raise rather than return an error.
The unified alternative is modelled beside the as-written one, not in its place.

## Model

| member | source | states |
|---|---|---|
| `Tables.ChannelTablesDisagree` | seed/serialize.py:20-27 | The channel allow-list and the channel table differ in exactly two names: UNKNOWN is accepted but has no table entry, and DEV has an entry but is not accepted |
| `Tables.PlatformTablesAgree` | seed/serialize.py:107-113 | The inline platform table has exactly the names of PLATFORMS (line 19) as keys |
| `Traversal.TraverseOk` | seed/serialize.py:103-114 | A lookup loop completes exactly when every element has an entry; the output then has the input's length and element i is the lookup of input element i |
| `Traversal.TraverseFirstErr` | seed/serialize.py:103-114 | When all elements before position i have entries and element i has none, the loop fails with element i's error, whatever follows it |
| `Traversal.TraverseEach` | seed/serialize.py:103-114 | The append loop with early exit computes exactly Traverse: the values in order, or the first element's error |
| `Validation.CheckStudy` | seed/serialize.py:35-45 | The three checks, in source order, report no failure exactly when the weights total 100, every channel is allowed and every platform is in PLATFORMS |
| `Validation.ScanFromNone` | seed/serialize.py:30-47 | The scan from study i finds nothing exactly when every study from i on is valid |
| `Validation.ScanFromSome` | seed/serialize.py:30-45 | A rejection found from study i names a study at or after i that fails its check, with every study between them valid |
| `Validation.ScanFromAt` | seed/serialize.py:30-45 | If the studies from i to j-1 are valid and study j fails, the scan from i reports study j with its check's reason |
| `Validation.AcceptedIffEveryStudyValid` | seed/serialize.py:30-47 | The document is accepted if and only if every study passes all three checks |
| `Validation.RejectionIsFirstFailure` | seed/serialize.py:30-45 | A rejection names an invalid study and the check that failed for it, and every earlier study is valid |
| `Validation.FirstFailureIsReported` | seed/serialize.py:30-45 | The first invalid study in document order is the one reported, regardless of later studies |
| `Validation.WeightMismatchEndsScan` | seed/serialize.py:31-37 | A bad weight total in the first failing study ends the scan on the weight check (the model's rejection also records that total), even if its channels or platforms are also bad |
| `Validation.OutsideNameRejected` | seed/serialize.py:39-45 | A channel outside the allow-list or a platform outside PLATFORMS in any study gets the document rejected |
| `Validation.DecidedByPrefix` | seed/serialize.py:30-47 | The rejection depends only on the studies up to and including the first failing one |
| `Validation.ValidateAgainst` | seed/serialize.py:29-47 | The nested loops with the running total return true exactly when every study is valid, and report exactly FirstRejection |
| `Validation.Validate` | seed/serialize.py:29-47 | validate as written, with the CHANNELS allow-list: true exactly when every study is valid against CHANNELS, with the first rejection reported |
| `Transform.AppendEach` | seed/serialize.py:96-101 | Appending a list element by element yields the old list followed by the new one, in order |
| `Transform.BuildExperiment` | seed/serialize.py:83-101 | Building an experiment field by field yields ExperimentMessage: name and weight copied, parameters copied when present, feature association set only when a feature was appended |
| `Transform.BuildFilter` | seed/serialize.py:103-130 | Building the filter yields FilterMessage: lookups in order with the first unknown name's error, and optional fields only when present |
| `Transform.BuildStudy` | seed/serialize.py:77-130 | Building a study yields StudyMessage, or the filter's lookup error |
| `Transform.MakeVariationsSeedMessage` | seed/serialize.py:71-132 | The study loop yields SeedMessage: the whole message, or the error of the first study whose filter cannot be mapped |
| `TransformProperties.SeedMessageStudies` | seed/serialize.py:72-81 | The output carries the input's version and the given serial number, and one study per input study in the same order with the same name, PERMANENT and ACTIVATE_ON_STARTUP |
| `TransformProperties.StudyMessageExperiments` | seed/serialize.py:83-86 | Each output study has one experiment per input experiment, in order, with equal name and probability weight |
| `TransformProperties.WeightsPreserved` | seed/serialize.py:83-86 | Copying the experiments keeps the probability-weight total |
| `TransformProperties.AcceptedWeightsTotal100` | seed/serialize.py:83-86 | For an accepted document, the weights of every output study total 100 |
| `TransformProperties.ParamsCopied` | seed/serialize.py:88-92 | Parameters are copied in order with equal name and value when the key is present, and the output list is empty when it is absent |
| `TransformProperties.FeaturesCopied` | seed/serialize.py:94-101 | The enable and disable lists are copied in order when their keys are present and are empty otherwise; the sub-message is set exactly when one of them is non-empty |
| `TransformProperties.FilterMessageOkIff` | seed/serialize.py:103-114 | A filter can be mapped if and only if every channel is a key of SUPPORTED_CHANNELS and every platform is a key of the platform table |
| `TransformProperties.FirstUnknownChannelReported` | seed/serialize.py:103-104 | The first channel without an entry is the error reported, before any platform is looked up |
| `TransformProperties.FirstUnknownPlatformReported` | seed/serialize.py:106-114 | When all channels map, the first platform without an entry is the error reported |
| `TransformProperties.FilterNamesMapped` | seed/serialize.py:103-114 | Channel and platform lists keep their length and order, and output element i is the table image of input element i |
| `TransformProperties.FilterOptionalFields` | seed/serialize.py:116-130 | country, min_version, max_version, min_os_version and max_os_version are each set exactly when their key is present, with the input value, and country keeps its order; the filter is set exactly when some field of it is |
| `TransformProperties.SeedMessageOkIff` | seed/serialize.py:103-114 | The message can be built if and only if every channel and platform name in every study has a table entry |
| `TransformProperties.SerialNumberOnlyTagged` | seed/serialize.py:74-75 | Two runs with different serial numbers give the same outcome, apart from the serial number itself |
| `Pipeline.Run` | seed/serialize.py:145-149 | main as written: the run stops as invalid exactly when some study fails validation against CHANNELS; otherwise it yields SeedMessage's error or its message |
| `Pipeline.AcceptedBuildsIffNoUnknownChannel` | seed/serialize.py:20-27 | For a document that validate accepts, the message can be built if and only if no study targets the UNKNOWN channel |
| `Pipeline.AcceptedYetUnmappable` | seed/serialize.py:20-27 | A valid study targeting UNKNOWN passes validate, and the channel lookup then fails on UNKNOWN |
| `Pipeline.DevRejectedYetMappable` | seed/serialize.py:20-27 | A study targeting DEV is rejected for its channel, although the transformer can map it |
| `Pipeline.ValidateUnified` | seed/serialize.py:39-41 | The validator with the allow-list taken from SUPPORTED_CHANNELS: true exactly when every study is valid against that table's keys |
| `Pipeline.UnifiedAcceptanceSuffices` | seed/serialize.py:20-27 | Every document the unified validator accepts can be transformed without a lookup error |
| `Pipeline.RunUnified` | seed/serialize.py:145-149 | main with the unified validator never ends in a lookup error: invalid exactly when some study fails, otherwise the message |
| `Pipeline.BalancedStudyAccepted` | seed/serialize.py:71-132 | One study with weights 60 and 40 on RELEASE and WINDOWS is accepted, and yields one PERMANENT study with both experiments and a filter of STABLE and PLATFORM_WINDOWS |
| `Pipeline.UnderweightStudyRejected` | seed/serialize.py:31-37 | The same study with weights 60 and 30 is rejected on the weight check; the model's rejection records study 0 and the total 90 |

## Findings

| source | as written | input that shows it | evidently intended | confidence | as-written member | corrected member |
|---|---|---|---|---|---|---|
| seed/serialize.py:20-27 | `validate` checks channels against `CHANNELS`, which contains UNKNOWN and not DEV. The transformer looks channels up in `SUPPORTED_CHANNELS`, which maps DEV and has no UNKNOWN entry. | One study with one experiment of weight 100, channel `["UNKNOWN"]` and platform `["WINDOWS"]`. `validate` returns True, and line 104 then raises `KeyError: 'UNKNOWN'`. | The validator accepts exactly the channel names the transformer can map, so an accepted document always transforms. | medium, not executed | `Pipeline.AcceptedYetUnmappable` | `Pipeline.UnifiedAcceptanceSuffices` |

The code as written is modelled by `Pipeline.Run` and
`Pipeline.AcceptedBuildsIffNoUnknownChannel`; the corrected allow-list by
`Pipeline.ValidateUnified` and `Pipeline.RunUnified`.

## Left out

- `get_serial_number` (lines 56-59) hashes wall-clock time with MD5. It is nondeterministic and uses a foreign hash library, so the serial number is an opaque string parameter.
- `string_to_timestamp` (lines 50-53) wraps date parsing, and the pipeline does not use it.
- `update_serial_number` and the file writes in `main` (lines 62-68, 152-155) are file I/O.
- `main`'s argument parsing and JSON loading (lines 135-143) are CLI and I/O plumbing. `Pipeline.Run` models only its validate-then-transform flow.
- The `print` calls are not modelled as output. The validator's three diagnostic prints are represented by the returned `Rejection`.
- `SerializeToString` and the generated protobuf modules are external. The message is a tree of datatypes, and the enum fields are enumerators, not numeric codes. The `Session` and `ActivateOnQuery` enumerators come from the upstream schema, which is not part of this model; the code only ever uses `Permanent` and `ActivateOnStartup`.
- `Transform.BuildExperiment`: does not model the range check that the protobuf library applies when `probability_weight` is assigned (line 86). The schema is not part of this model. If the field is unsigned, a document with a negative weight passes `validate` (for example weights 150 and -50) but would be refused by the library; the model copies the integer unchanged.
- Documents with a missing key or a value of the wrong type are not modelled: the input datatypes make them unrepresentable, so the source's behaviour on them does not appear. That behaviour is as follows.
  - `validate` reads `studies`, and then, for every study up to and including the first failing one, that study's `experiments` and each of its experiments' `probability_weight` (lines 30-33). It raises `KeyError` if one of these is missing. A weight that is not a number raises `TypeError` at line 33. Studies after the first failing one are never read, because the loop returns at line 37, 41 or 45. For example, if study 0 has weights [90] and study 1 has no `experiments` key, `validate` returns False at line 37 with no `KeyError`.
  - `validate` reads a study's `filter` and `channel` only after the weight check passes (line 39), and `platform` only after the channel check passes (line 43). So a study whose weights total 90 and that has no `filter` key makes `validate` return False at line 37, with no `KeyError`.
  - `validate` never reads `version`, a study's `name`, an experiment's `name`, or a parameter's `name` and `value`. A document missing one of these passes `validate`, and the transformer then raises `KeyError` at line 73, 79, 85 or 91-92. This is a second way, besides the UNKNOWN channel, for `validate` to accept a document the transformer cannot build.
  - A fractional weight is accepted by `validate` when the total equals 100 in Python: weights 60.5 and 39.5, or 60.0 and 40.0, pass. The transformer then fails at line 86, because the protobuf library refuses a float for an integer field. This is a third way for `validate` to accept a document the transformer cannot build. The model's weights are integers, so such a document is unrepresentable.
  - Unknown extra keys have no field and so are ignored, as in the source.
- The platform table is rebuilt on every iteration in the source (lines 107-113). It is a constant here, which does not change any result.
