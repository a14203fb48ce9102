# nmdc_ms_metadata_gen, modelled in Dafny

`nmdc_ms_metadata_gen` turns spreadsheets describing mass-spectrometry
runs (GC/MS metabolomics, LC/MS metabolomics and lipidomics, natural
organic matter) into NMDC schema records: biosamples,
material-processing steps and processed samples, data objects, mass
spectrometry data generation, calibrations and metabolomics or NOM
analyses. It mints record IDs from a local pool refilled from the NMDC
minting service, reads biosample attributes out of CSV rows, fills a
YAML outline of the material-processing protocol with sample-specific
values, links raw files to their calibrations and QC status, and
surveys what a study already holds before a new mapping sheet is
submitted.

This project models that core on values and small mutable objects:

- `Common` holds Python's values as the sources meet them (`None`, a
  pandas NaN, strings, ints, lists, dicts), errors as a `Result`, and
  string helpers (`str.strip`, `str.split`, `in`, string ordering).
- `Frames` holds a pandas frame as a `Table` (column names plus rows
  mapping a column to a value), a mutable `DataFrame`, and the
  `Database` of NMDC records the generators fill.
- One module per source file models that file's operations, as functions
  where the code computes values and as methods over the classes where it
  updates the ID pool, the frame, the database or the YAML outline in place.
- Code repeated verbatim in two files is modelled once:
  `sheet_generator.py` delegates to the change-sheet model, and the
  `additional_info` check of `metadata_input_check.py` (lines 139-166) is
  the same column check as in `study_metadata.py`, modelled by
  `StudyMetadata.AdditionalInfo`.

The NMDC API, the minting service, the file system and the schema's
runtime are parameters (oracles): a minting function of the request, a
file listing with time stamps, the schema classes as values. Every
contract below is proved for all inputs of those oracles.

## Model

| member | source | states |
|---|---|---|
| IdPool.IDPool.constructor | nmdc_ms_metadata_gen/id_pool.py:16-19 | a new pool keeps the given pool size and refill threshold and holds no IDs of any type |
| IdPool.IDPool.RefillPool | nmdc_ms_metadata_gen/id_pool.py:52-90 | the minting service is asked for `pool_size` IDs up to `retries` times; the first batch it returns is appended after the IDs already pooled for the type and no other type's pool changes; when every attempt fails RuntimeError is raised and no pool changes |
| IdPool.RetryStopsAtFirstSuccess | nmdc_ms_metadata_gen/id_pool.py:73-84 | the first attempt that succeeds is the one whose batch is used, and exactly the attempts up to it are made |
| IdPool.RetryGivesUp | nmdc_ms_metadata_gen/id_pool.py:85-90 | when every attempt fails all `retries` calls are made and RuntimeError is raised |
| IdPool.RetryBounded | nmdc_ms_metadata_gen/id_pool.py:73-90 | a refill never calls the service more than `retries` times, and a successful refill's batch is the answer to its last call |
| IdPool.IDPool.GetId | nmdc_ms_metadata_gen/id_pool.py:21-50 | the pool is refilled exactly when it holds at most `refill_threshold` IDs; the ID returned and the pool left are those of `TakeId` (the last ID of the refilled pool, or RuntimeError when it is empty); other types' pools are untouched |
| IdPool.TakeId | nmdc_ms_metadata_gen/id_pool.py:39-50 | a failed refill of a short pool raises its error; otherwise an empty pool raises RuntimeError, and a non-empty one gives an ID that, put back at the end, restores the refilled pool |
| IdPool.PoolAfterRefill | nmdc_ms_metadata_gen/id_pool.py:40-41 | a pool above the threshold is unchanged; a pool at or below it is followed by the refill's batch, its old IDs first |
| IdPool.TakeIdRemovesId | nmdc_ms_metadata_gen/id_pool.py:50 | from a pool of distinct IDs, the ID handed out is no longer in the pool, so it cannot be handed out twice |
| IdPool.TakeIds | nmdc_ms_metadata_gen/id_pool.py:21-50 | `n` successive `get_id` calls give at most `n` IDs, and exactly `n` when none raises |
| IdPool.TakeIdsNext | nmdc_ms_metadata_gen/id_pool.py:21-50 | after `n` successful calls the next ID is `TakeId` on the pool those calls left |
| IdPool.TakeIdsStops | nmdc_ms_metadata_gen/id_pool.py:44-47 | once a call has raised, asking for more IDs changes nothing |
| ChangesheetGenerator.ChangeSheetInitializeEmptyDf | nmdc_ms_metadata_gen/changesheet_generator.py:10-26 | an empty frame with exactly the columns id, action, attribute, value |
| ChangesheetGenerator.ChangeSheetAddRow | nmdc_ms_metadata_gen/changesheet_generator.py:28-56 | the new frame is one row longer, keeps the old columns first and every old cell, and its last row holds the four given values |
| ChangesheetGenerator.ChangeSheetAppends | nmdc_ms_metadata_gen/changesheet_generator.py:28-56 | on a frame with the change-sheet columns, `add_row` is exactly appending one row of the given values |
| ChangesheetGenerator.WorkflowSheetInitializeEmptyDf | nmdc_ms_metadata_gen/changesheet_generator.py:66-83 | an empty frame with exactly the columns biosample_id, raw_data_identifier, last_processed_sample |
| ChangesheetGenerator.WorkflowSheetAddRow | nmdc_ms_metadata_gen/changesheet_generator.py:85-117 | the new frame is one row longer, keeps the old columns first and every old cell, and its last row holds the three given values |
| ChangesheetGenerator.WorkflowSheetAppends | nmdc_ms_metadata_gen/changesheet_generator.py:85-117 | on a frame with the workflow-sheet columns, `add_row` is exactly appending one row of the given values |
| SheetGenerator.ChangeSheetInitializeEmptyDf | nmdc_ms_metadata_gen/sheet_generator.py:10-26 | as in the change-sheet file: an empty frame with the four change-sheet columns |
| SheetGenerator.ChangeSheetAddRow | nmdc_ms_metadata_gen/sheet_generator.py:28-56 | one row longer, old columns and cells kept, last row holds the given values |
| SheetGenerator.WorkflowSheetInitializeEmptyDf | nmdc_ms_metadata_gen/sheet_generator.py:66-83 | an empty frame with the three workflow-sheet columns |
| SheetGenerator.WorkflowSheetAddRow | nmdc_ms_metadata_gen/sheet_generator.py:85-117 | one row longer, old columns and cells kept, last row holds the given values |
| MetadataParser.ColumnKey | nmdc_ms_metadata_gen/metadata_parser.py:52-58 | a biosample field is read from the column `biosample.<key>`, any other key from the column of its own name |
| MetadataParser.QuantityDict | nmdc_ms_metadata_gen/metadata_parser.py:59-77 | a key is in the quantity dictionary exactly when it is one of the five sub-column names and its cell is not None, and it holds that cell |
| MetadataParser.GetValue | nmdc_ms_metadata_gen/metadata_parser.py:33-90 | a plain field gives its cell, or the default for an absent column or NaN; a quantity field with no sub-columns gives the default, one whose unit is missing or falsy raises ValueError, otherwise the dictionary of its sub-columns |
| MetadataParser.GetValueAbsentQuantity | nmdc_ms_metadata_gen/metadata_parser.py:62-80 | a quantity field none of whose sub-columns exist reads as None |
| MetadataParser.GetValueNaNUnitAccepted | nmdc_ms_metadata_gen/metadata_parser.py:81-84 | a NaN unit passes the unit check, since NaN is truthy |
| MetadataParser.CreateQuantityValue | nmdc_ms_metadata_gen/metadata_parser.py:274-305 | the None entries are dropped, every other entry is kept unchanged, and `type` is `nmdc:QuantityValue` |
| MetadataParser.CreateQuantityValueIdempotent | nmdc_ms_metadata_gen/metadata_parser.py:274-305 | building a quantity value from one already built changes nothing |
| MetadataParser.CreateGeoLocValue | nmdc_ms_metadata_gen/metadata_parser.py:307-330 | succeeds exactly when the raw value has a space; latitude (without a space) and longitude joined by a space give back the raw value, which is also kept as `has_raw_value` |
| MetadataParser.GeoLocRoundTrip | nmdc_ms_metadata_gen/metadata_parser.py:307-330 | latitude and longitude read back from the value built from them are the originals |
| MetadataParser.CreateControlledIdentifiedTermValue | nmdc_ms_metadata_gen/metadata_parser.py:354-384 | the raw value is the term's id and the raw value; the term has a name exactly when the enumeration lists the value, and then it is the enumeration's entry |
| YamlSpecifier.PatchSlot | nmdc_ms_metadata_gen/metadata_parser.py:506-514 | a quantity slot gets the row's value as `has_numeric_value` and, when it has a unit, `"<value> <unit>"` as `has_raw_value`; its unit and every other entry are unchanged |
| YamlSpecifier.PatchSlotIdempotent | nmdc_ms_metadata_gen/metadata_parser.py:506-514 | writing the same value into a slot twice leaves it as one write does |
| YamlSpecifier.ApplyRowsShape | nmdc_ms_metadata_gen/metadata_parser.py:495-514 | applying rows keeps every step's shape: only quantity slots change, and never their unit |
| YamlSpecifier.ApplyRowEffect | nmdc_ms_metadata_gen/metadata_parser.py:500-514 | a row that raises nothing patches the named slot of every step whose process it names (that slot has a unit) and leaves every other step as it was |
| YamlSpecifier.ApplyRowsStops | nmdc_ms_metadata_gen/metadata_parser.py:513 | once a slot without a unit has raised KeyError, the later rows are not applied |
| YamlSpecifier.Outline.UpdateQuantityValue | nmdc_ms_metadata_gen/metadata_parser.py:476-516 | the outline's steps become the rows applied in order to every step, stopping at the first slot without a unit with KeyError and the writes before it kept; the processed samples are unchanged |
| YamlSpecifier.Outline.PatchRow | nmdc_ms_metadata_gen/metadata_parser.py:500-514 | one row patches every step of the outline in order and reports whether a quantity slot without a unit stopped it; the processed samples are unchanged |
| YamlSpecifier.StepNumber | nmdc_ms_metadata_gen/metadata_parser.py:591-593 | the step number is the integer of the key's second blank-separated token; a key with fewer than two tokens raises IndexError, a token that is not an integer ValueError |
| YamlSpecifier.StepNumberOfKey | nmdc_ms_metadata_gen/metadata_parser.py:591-593 | a key `Step <n>` followed by nothing or a blank gives back the number `n` |
| YamlSpecifier.StepMap | nmdc_ms_metadata_gen/metadata_parser.py:547-549 | the step map has one entry per key, each entry is a step of the outline, and every step's key is in the map |
| YamlSpecifier.LeastClosedUnique | nmdc_ms_metadata_gen/metadata_parser.py:552-583 | there is only one set of required placeholders: the least set closed under "a step producing a member has its producible inputs in it" that holds the producible targets |
| YamlSpecifier.RequiredExplained | nmdc_ms_metadata_gen/metadata_parser.py:552-583 | every required placeholder is a target or an input of a step that produces a required placeholder |
| YamlSpecifier.TraceRound | nmdc_ms_metadata_gen/metadata_parser.py:556-580 | one pass over the step map finds every step producing a placeholder traced in this round, requires what it produces, and traces its inputs not yet required |
| YamlSpecifier.Trace | nmdc_ms_metadata_gen/metadata_parser.py:540-583 | the trace terminates with the least closed set of required placeholders, and the steps found are, without repeats, exactly the mapped steps producing a required placeholder |
| YamlSpecifier.KeptOutputs | nmdc_ms_metadata_gen/metadata_parser.py:586-589 | a kept step's outputs are non-empty, without repeats, and exactly its original outputs that are required |
| YamlSpecifier.FilterSamples | nmdc_ms_metadata_gen/metadata_parser.py:595-603 | the processed-sample outlines kept are exactly those whose placeholder is required, in their original order |
| YamlSpecifier.PrunedInPlace | nmdc_ms_metadata_gen/metadata_parser.py:586-593 | when sorting raises, the outline keeps its step list (of the same length), with only the mapped kept steps pruned in place |
| YamlSpecifier.FinalOutputsAreTargets | nmdc_ms_metadata_gen/metadata_parser.py:518-605 | when every target is produced by some step and no kept step consumes a target, the outputs of the pruned outline that no kept step consumes are exactly the targets |
| YamlSpecifier.SortedSeconds | nmdc_ms_metadata_gen/metadata_parser.py:591-593 | the kept steps sorted by their numbers are ordered by step number |
| YamlSpecifier.SecondsAreKept | nmdc_ms_metadata_gen/metadata_parser.py:591-593 | sorting keeps exactly the kept steps, as many as there are |
| YamlSpecifier.UpdateSampleOutputsOf | nmdc_ms_metadata_gen/metadata_parser.py:518-605 | the required placeholders are the least closed set; without an error the new steps are the kept, pruned steps sorted by step number and the new processed samples those of required placeholders; a key without a number gives IndexError or ValueError with the steps pruned in place and the samples unchanged |
| YamlSpecifier.Outline.UpdateSampleOutputs | nmdc_ms_metadata_gen/metadata_parser.py:518-605 | the outline's steps and processed samples become those `UpdateSampleOutputsOf` states for its old ones |
| YamlSpecifier.Outline.YamlGeneration | nmdc_ms_metadata_gen/metadata_parser.py:607-638 | without sample rows the outline is only pruned; with rows whose patching raises, that KeyError is returned with the patched steps; otherwise the patched outline is pruned as `UpdateSampleOutputsOf` states |
| MaterialProcessing.FindRefs | nmdc_ms_metadata_gen/material_processing_generator.py:252-254 | the references `re.findall(r"<(.*?)>", s)` finds contain no `>` and no newline, and a string without `<` has none |
| MaterialProcessing.FindRefsRendered | nmdc_ms_metadata_gen/material_processing_generator.py:252-254 | in a string written as literal text and `<name>` references, the scan finds exactly the references' names, in order |
| MaterialProcessing.ReplaceRendered | nmdc_ms_metadata_gen/material_processing_generator.py:256-261 | replacing `<n>` in such a string replaces exactly the references to `n`, and leaves the literal text and other references as they were |
| MaterialProcessing.Store | nmdc_ms_metadata_gen/material_processing_generator.py:266-269 | storing an entry under a placeholder keeps the dictionary's insertion order: a new key goes last, an existing one keeps its place |
| MaterialProcessing.SubstituteRefs | nmdc_ms_metadata_gen/material_processing_generator.py:255-261 | the substitution succeeds exactly when every reference has a placeholder; otherwise KeyError names a reference without one |
| MaterialProcessing.SubstituteRendered | nmdc_ms_metadata_gen/material_processing_generator.py:250-261 | a string slot is rewritten with every `<name>` replaced by that placeholder's ID and nothing else changed, and it fails exactly when some reference has no placeholder |
| MaterialProcessing.SubstituteBody | nmdc_ms_metadata_gen/material_processing_generator.py:281-289 | substituting the slots of an outline or a process can only fail with KeyError |
| MaterialProcessing.SubstituteString | nmdc_ms_metadata_gen/material_processing_generator.py:252-261 | the loop over one string's references computes the substitution `SubstituteRendered` characterises |
| MaterialProcessing.SubstituteSlots | nmdc_ms_metadata_gen/material_processing_generator.py:281-289 | the loop over the slots rewrites exactly the string slots, as `SubstituteBody` states |
| MaterialProcessing.KeepPresent | nmdc_ms_metadata_gen/material_processing_generator.py:266-269 | an attribute that is neither None nor sized (an int, a bool or NaN) makes `len` raise TypeError, exactly then; otherwise the entry recorded for a new placeholder holds exactly the attributes that are not None and not empty, with their values |
| MaterialProcessing.InputIds | nmdc_ms_metadata_gen/material_processing_generator.py:230-238 | the input IDs are found exactly when every input placeholder exists, and are their IDs in order; otherwise ValueError names an input placeholder not yet created |
| MaterialProcessing.OutlinesFrom | nmdc_ms_metadata_gen/material_processing_generator.py:243-261 | substituting the outlines for one output keeps their number, and fails only with KeyError |
| MaterialProcessing.ProduceOne | nmdc_ms_metadata_gen/material_processing_generator.py:242-276 | corrected (Findings row 8): one output adds its placeholder to the dictionary and one processed sample, and adds no material-processing record; its errors are KeyError, NameError, RuntimeError or TypeError |
| MaterialProcessing.OutputsFrom | nmdc_ms_metadata_gen/material_processing_generator.py:242-276 | corrected (Findings row 8): the outputs of a step add exactly their placeholders to the dictionary and one processed sample each |
| MaterialProcessing.RunStep | nmdc_ms_metadata_gen/material_processing_generator.py:222-303 | corrected (Findings row 8): a step that succeeds had all its inputs defined, defines its outputs, adds one processed sample per output and one material-processing record; its ValueError names one of its inputs that is not yet defined |
| MaterialProcessing.ResolveInputs | nmdc_ms_metadata_gen/material_processing_generator.py:230-238 | the input loop computes `InputIds` |
| MaterialProcessing.SubstituteOutlines | nmdc_ms_metadata_gen/material_processing_generator.py:243-261 | the outline loop computes `OutlinesFrom` |
| MaterialProcessing.ProduceOutput | nmdc_ms_metadata_gen/material_processing_generator.py:243-276 | corrected (Findings row 8): the body of the output loop computes `ProduceOne` and appends the new processed sample to the database's processed-sample set |
| MaterialProcessing.ProduceOutputs | nmdc_ms_metadata_gen/material_processing_generator.py:242-276 | corrected (Findings row 8): the output loop computes `OutputsFrom` and appends its processed samples to the database's processed-sample set |
| MaterialProcessing.GenerateStep | nmdc_ms_metadata_gen/material_processing_generator.py:222-303 | corrected (Findings row 8): one step computes `RunStep` and appends its processed samples and its material-processing record to the database |
| MaterialProcessing.RunSteps | nmdc_ms_metadata_gen/material_processing_generator.py:222-303 | corrected (Findings row 8): the steps run in order from a state give the whole-run result `StepsFrom`; on success the database gains exactly that run's processed samples and material-processing records |
| MaterialProcessing.CollectFinals | nmdc_ms_metadata_gen/material_processing_generator.py:306-310 | the loop over the placeholder dictionary computes the final outputs `FinalFromMembers` characterises |
| MaterialProcessing.JsonGeneration | nmdc_ms_metadata_gen/material_processing_generator.py:196-313 | corrected (Findings row 8): the run's error, its final outputs and the records appended to the database's two sets are those of the whole-run specification `Generate` |
| MaterialProcessing.GenerateInputsDefinedEarlier | nmdc_ms_metadata_gen/material_processing_generator.py:229-238 | corrected (Findings row 8): when a run succeeds, every step's inputs were in the initial dictionary or are outputs of an earlier step |
| MaterialProcessing.GenerateValueErrorIsUndefinedInput | nmdc_ms_metadata_gen/material_processing_generator.py:235-238 | corrected (Findings row 8): a ValueError names an input of some step that was neither in the initial dictionary nor output by an earlier step |
| MaterialProcessing.GenerateCounts | nmdc_ms_metadata_gen/material_processing_generator.py:276-303 | corrected (Findings row 8): a successful run appends exactly one processed sample per `has_output` entry of every step and one material-processing record per step |
| MaterialProcessing.StepErrorAsWritten | nmdc_ms_metadata_gen/material_processing_generator.py:222-294 | as written every step raises: ValueError exactly when one of its inputs is not yet defined, otherwise KeyError from a substitution, NameError or TypeError at the call that builds the processed sample, or AttributeError at the generator lookup |
| MaterialProcessing.GenerateAsWritten | nmdc_ms_metadata_gen/material_processing_generator.py:196-313 | as written a run succeeds exactly when the outline has no steps, and then has no final outputs; otherwise it raises the first step's error |
| MaterialProcessing.OutputStepRaisesTypeError | nmdc_ms_metadata_gen/material_processing_generator.py:242-276 | one sub-sampling step with one output: the corrected run gives one processed sample, one process and the final output ("p1", its ID); as written the run raises TypeError at `generate_processed_sample` |
| MaterialProcessing.FinalFromMembers | nmdc_ms_metadata_gen/material_processing_generator.py:306-310 | the final outputs are exactly the placeholders whose ID was output and never input, each with that ID and each once |
| MaterialProcessing.RawIdsUnderMembers | nmdc_ms_metadata_gen/material_processing_generator.py:147-153 | the raw identifiers under a placeholder are exactly those of its mapping rows, without repeats |
| MaterialProcessing.RemoveAll | nmdc_ms_metadata_gen/material_processing_generator.py:173-175 | the unmatched list keeps exactly the items not among the mapped raw identifiers |
| MaterialProcessing.RowsWithRawIdIn | nmdc_ms_metadata_gen/material_processing_generator.py:178-180 | the selected rows are exactly the mapping rows whose raw identifier is listed |
| MaterialProcessing.AddFinalSampleRows | nmdc_ms_metadata_gen/material_processing_generator.py:155-170 | each raw identifier under one final sample adds, in order, an update/has_input change-sheet row when it contains "nmdc:" and a workflow-sheet row otherwise, after the rows already there |
| MaterialProcessing.MapFinalSamples | nmdc_ms_metadata_gen/material_processing_generator.py:131-182 | a raw identifier under a final sample's placeholder that is not a string makes the `"nmdc:" in` test raise TypeError, exactly then; otherwise the change sheet gains, in order, one update/has_input row per (raw identifier with "nmdc:", final sample) pair, the workflow sheet one row per other pair, and the unmatched rows are those of raw identifiers under no final sample |
| MaterialProcessing.SearchableRows | nmdc_ms_metadata_gen/material_processing_generator.py:145-156 | the loop gets past every `"nmdc:" in` test exactly when every mapping row under a final sample's placeholder has a string raw identifier |
| MaterialProcessing.EntriesUpToMembers | nmdc_ms_metadata_gen/material_processing_generator.py:145-170 | a pair is written for the first `k` final samples exactly when its raw identifier sits under one of their placeholders, on the sheet its "nmdc:" test selects |
| MaterialProcessing.MapFinalSamplesSheets | nmdc_ms_metadata_gen/material_processing_generator.py:155-170 | when no test raises: a change-sheet row is written exactly for the raw identifiers with "nmdc:" under a final sample's placeholder, a workflow-sheet row exactly for the others |
| MaterialProcessing.MapFinalSamplesUnmatched | nmdc_ms_metadata_gen/material_processing_generator.py:142-180 | the unmatched rows are exactly the mapping rows whose raw identifier, NaN included, sits under no final sample's placeholder |
| MetadataGenerator.CleanDict | nmdc_ms_metadata_gen/metadata_generator.py:193-207 | a key is kept exactly when its value is neither None nor the empty string, with its value unchanged; whitespace-only strings are kept |
| MetadataGenerator.CleanDictIdempotent | nmdc_ms_metadata_gen/metadata_generator.py:193-207 | cleaning a cleaned dictionary changes nothing |
| MetadataGenerator.DataObjectRecord | nmdc_ms_metadata_gen/metadata_generator.py:275-291 | the cleaned data-object dictionary: a given `url` is used when there is one, otherwise the base URL followed by the file name; each slot is present exactly when its value is not blank; type and file size are always present |
| MetadataGenerator.DataObjectUrlPrecedence | nmdc_ms_metadata_gen/metadata_generator.py:283 | a given URL always wins over the base URL, and a given empty URL leaves the record without a URL |
| MetadataGenerator.DataObjectFromPool | nmdc_ms_metadata_gen/metadata_generator.py:269-291 | the record's ID is the one the DataObject pool hands out, the pool left is the one `TakeId` leaves, and the call raises exactly when the pool does |
| MetadataGenerator.GenerateDataObject | nmdc_ms_metadata_gen/metadata_generator.py:209-294 | the data object and the DataObject pool afterwards are those `DataObjectFromPool` gives for the pool before; no other pool changes |
| MetadataGenerator.OptionalQuantity | nmdc_ms_metadata_gen/metadata_generator.py:412-438 | a quantity slot is added exactly when both its value and its unit are truthy, with that value and unit, and no other key is added |
| MetadataGenerator.OtherSlotKept | nmdc_ms_metadata_gen/metadata_generator.py:412-438 | setting one optional quantity leaves every other slot as it was |
| MetadataGenerator.QuantitySlotKept | nmdc_ms_metadata_gen/metadata_generator.py:412-438 | a quantity slot already set stays set when another is added |
| MetadataGenerator.PortionOfSubstance | nmdc_ms_metadata_gen/metadata_generator.py:368-444 | the portion has its name and type; volume, both concentrations and mass are present exactly when value and unit are truthy, both concentrations with the one concentration unit; the role is present exactly when truthy |
| MetadataGenerator.ConcentrationsShareUnit | nmdc_ms_metadata_gen/metadata_generator.py:419-431 | two recorded concentrations carry the same unit, and a falsy concentration unit records neither |
| MetadataGenerator.AnalysisDict | nmdc_ms_metadata_gen/metadata_generator.py:764-785 | the analysis dictionary before cleaning: `has_input` is [raw data, parameter file], `has_output` is [processed data], and calibration and identifications are present exactly when not None |
| MetadataGenerator.MetabolomicsAnalysisRecord | nmdc_ms_metadata_gen/metadata_generator.py:764-787 | the cleaned analysis record keeps the ID, inputs and outputs in that order, and has a calibration or identifications exactly when given and not blank |
| MetadataGenerator.GenerateMetabolomicsAnalysis | nmdc_ms_metadata_gen/metadata_generator.py:687-790 | a given incremented ID is used and no pool changes; otherwise the ID is the one the MetabolomicsAnalysis pool hands out followed by ".1", and a pool error is raised; no other pool changes |
| MetadataGenerator.Earliest | nmdc_ms_metadata_gen/metadata_generator.py:972 | the minimum is one of the timestamps and no later than any of them |
| MetadataGenerator.StartEndTimes | nmdc_ms_metadata_gen/metadata_generator.py:951-978 | the end is the modification time; the start is one of modification, change and birth time, no later than any of them, so the start never comes after the end |
| MetadataGenerator.CollectionErrors | nmdc_ms_metadata_gen/metadata_generator.py:1086-1094 | a known collection's messages are the validator's, then "value must be a list" for a truthy non-list, or "all elements of list must be dicts" for a list with a non-dictionary element |
| MetadataGenerator.WithoutMarker | nmdc_ms_metadata_gen/metadata_generator.py:1098 | the dump handed to the `Database` class holds exactly the entries other than `@type` |
| MetadataGenerator.ValidateJsonNoApi | nmdc_ms_metadata_gen/metadata_generator.py:981-1100 | the result is the errors when some collection recorded a message; otherwise "All Okay!" when the `Database` class accepts the dump without `@type`, or its message |
| MetadataGenerator.ScreenEntry | nmdc_ms_metadata_gen/metadata_generator.py:1068-1094 | an unknown name records one "not a known schema collection name" message unless it is `@type` with "Database" or "nmdc:Database"; a known name records its collection's messages |
| MetadataGenerator.ScreenKeys | nmdc_ms_metadata_gen/metadata_generator.py:1068-1094 | every name with recorded messages is a collection of the dump |
| MetadataGenerator.CheckUnique | nmdc_ms_metadata_gen/metadata_generator.py:1182-1186 | the check passes exactly when every listed column exists and has no duplicate; otherwise it names one listed column, with KeyError when it is missing and ValueError when it has a duplicate |
| MetadataGenerator.LoadMetadata | nmdc_ms_metadata_gen/metadata_generator.py:1152-1221 | a missing file raises FileNotFoundError; a failed uniqueness check raises its error; in test mode every row keeps its cells and gets the placeholder study as `associated_studies` |
| MetadataGenerator.NamePairs | nmdc_ms_metadata_gen/metadata_generator.py:1619 | one (manifest_name, manifest_id) pair per row, in row order |
| MetadataGenerator.LastIds | nmdc_ms_metadata_gen/metadata_generator.py:1618-1622 | the mapping's names are exactly the names of the pairs |
| MetadataGenerator.KeyOrder | nmdc_ms_metadata_gen/metadata_generator.py:1621-1625 | the mapping's key order lists each of its names once |
| MetadataGenerator.LastIdsLastWins | nmdc_ms_metadata_gen/metadata_generator.py:1621-1622 | a name maps to the ID of its last pair |
| MetadataGenerator.MissingIds | nmdc_ms_metadata_gen/metadata_generator.py:1629-1631 | corrected (Findings row 1): the names that get a new manifest are exactly those whose ID is null, without repeats |
| MetadataGenerator.ResolveAt | nmdc_ms_metadata_gen/metadata_generator.py:1629-1651 | a name that needed an ID gets the one minted for it; every other name keeps its ID |
| MetadataGenerator.ManifestRecords | nmdc_ms_metadata_gen/metadata_generator.py:1639-1648 | one manifest per minted ID, named after the name it was minted for |
| MetadataGenerator.MapManifestIds | nmdc_ms_metadata_gen/metadata_generator.py:1654-1656 | every row's `manifest_id` becomes its name's ID and no other cell changes |
| MetadataGenerator.WithIdColumn | nmdc_ms_metadata_gen/metadata_generator.py:1615-1616 | adding a missing `manifest_id` column keeps the rows and their names |
| MetadataGenerator.NameIdMapping | nmdc_ms_metadata_gen/metadata_generator.py:1618-1622 | the loop over the distinct pairs builds the last-wins mapping with names in first-occurrence order |
| MetadataGenerator.MintManifests | nmdc_ms_metadata_gen/metadata_generator.py:1624-1651 | with the corrected selection of Findings row 1: the minting loop appends one manifest per name lacking an ID, in key order, with the IDs the Manifest pool hands out; the pool and the error are those of that many `get_id` calls, and without an error each such name gets its minted ID |
| MetadataGenerator.GenerateManifest | nmdc_ms_metadata_gen/metadata_generator.py:1581-1656 | with the corrected selection of Findings row 1: without manifest names nothing changes; otherwise the manifests minted, the pool and the frame are those `ManifestsMinted` states; no other pool changes |
| MetadataGenerator.MintAndMapManifests | nmdc_ms_metadata_gen/metadata_generator.py:1614-1656 | with the corrected selection of Findings row 1: past the early return: the manifests, the pool and every row's `manifest_id` are as `ManifestsMinted` states |
| MetadataGenerator.CheckManifest | nmdc_ms_metadata_gen/metadata_generator.py:1424-1455 | `generate_manifest` runs exactly when the frame has no `manifest_id` column or a null in it; otherwise frame, database and pool are unchanged |
| MetadataGenerator.GeneratedIdsNotNull | nmdc_ms_metadata_gen/metadata_generator.py:1581-1656 | with the corrected selection of Findings row 1: when minting succeeds on a frame with manifest names, every row ends up with a non-null `manifest_id` |
| MetadataGenerator.MissingIdsAsWritten | nmdc_ms_metadata_gen/metadata_generator.py:1629-1631 | as written, only names mapped to None get a manifest |
| MetadataGenerator.NaNManifestIdSkipped | nmdc_ms_metadata_gen/metadata_generator.py:1446-1656 | a frame with a NaN `manifest_id` passes the null check, but the `is not None` test mints nothing for it, while the corrected test mints one manifest |
| MetadataGenerator.StringList | nmdc_ms_metadata_gen/metadata_generator.py:1506 | the processed-data IDs become a list of the same strings in order |
| MetadataGenerator.UpdateOutputs | nmdc_ms_metadata_gen/metadata_generator.py:1457-1506 | unless rerunning, the mass-spectrometry record's `has_output` becomes [raw data ID], and a missing record raises AttributeError with nothing changed; then the analysis's `has_input` becomes the parameter ID and `has_output` the processed IDs |
| MetadataGenerator.UpdatedAnalysisLinks | nmdc_ms_metadata_gen/metadata_generator.py:1505-1506 | after the update the analysis holds exactly the given input and outputs, and every other slot as before |
| AnalysisIds.TrailingDigitsStart | nmdc_ms_metadata_gen/gcms_metab_metadata_generator.py:215 | where the digit run matched by `(\d+)$` begins: everything from there on is a digit and the character before it is not |
| AnalysisIds.IncrementIdParts | nmdc_ms_metadata_gen/gcms_metab_metadata_generator.py:214-220 | the increment keeps the text before the trailing number and makes the new trailing number the old one plus one; an ID without trailing digits is unchanged |
| AnalysisIds.PreviousIds | nmdc_ms_metadata_gen/gcms_metab_metadata_generator.py:213-220 | the `id` of every previous analysis in order; it fails exactly when some record has no string `id` |
| AnalysisIds.GreatestIdIndex | nmdc_ms_metadata_gen/gcms_metab_metadata_generator.py:213 | `max` on string IDs: the chosen ID is not less than any other in string order, and it is the first such |
| AnalysisIds.LatestVersionIndex | nmdc_ms_metadata_gen/gcms_metab_metadata_generator.py:212-213 | the corrected choice: the first ID whose version number is the greatest |
| AnalysisIds.LatestIncrementIsFresh | nmdc_ms_metadata_gen/gcms_metab_metadata_generator.py:212-220 | incrementing the ID with the greatest version yields an ID that none of the previous analyses has |
| AnalysisIds.NinthRerunRepeatsId | nmdc_ms_metadata_gen/gcms_metab_metadata_generator.py:213-220 | with IDs ending ".9" and ".10", the string maximum picks ".9" and its increment repeats the ".10" ID; choosing by version does not |
| AnalysisIds.LexicographicRerunRepeatsId | nmdc_ms_metadata_gen/lcms_metadata_generator.py:360-367 | the same repeat on an analysis ID of the minted shape `nmdc:wfmb-11-abc.9`/`.10` |
| AnalysisIds.RerunAnalysis | nmdc_ms_metadata_gen/gcms_metab_metadata_generator.py:207-220 | corrected (Findings row 2): a failed search is re-raised; an empty result raises ValueError; otherwise the previous analysis is the latest by version and the new ID is its ID incremented |
| AnalysisIds.NomRerunAnalysis | nmdc_ms_metadata_gen/nom_metadata_generator.py:100-120 | with the corrected choice of Findings row 2: the NOM rerun fails exactly when the shared choice fails, always with IndexError, and otherwise gives the same analysis and ID |
| GcmsMetabolomics.InsertPeak | nmdc_ms_metadata_gen/gcms_metab_metadata_generator.py:671 | inserting a peak index into an ascending list keeps it ascending and adds exactly that index |
| GcmsMetabolomics.Peaks | nmdc_ms_metadata_gen/gcms_metab_metadata_generator.py:669-671 | the groups are the peak indices of the hits with a similarity score, ascending, each once |
| GcmsMetabolomics.BestOf | nmdc_ms_metadata_gen/gcms_metab_metadata_generator.py:669-673 | a peak has a best hit exactly when it has a scored hit; the best hit is scored, belongs to the peak, scores at least as high as every hit of the peak and strictly higher than every earlier one |
| GcmsMetabolomics.BestHits | nmdc_ms_metadata_gen/gcms_metab_metadata_generator.py:669-673 | one best hit per peak, in ascending peak order, each scored |
| GcmsMetabolomics.KeggPieces | nmdc_ms_metadata_gen/gcms_metab_metadata_generator.py:687-692 | each `|`-separated piece, stripped, behind "kegg:" |
| GcmsMetabolomics.KeggIds | nmdc_ms_metadata_gen/gcms_metab_metadata_generator.py:682-695 | no KEGG ID gives no identifiers; one without `|` gives "kegg:" and the value unstripped; otherwise the identifiers are exactly the prefixed stripped pieces; never a repeat |
| GcmsMetabolomics.KeggIdsPrefixed | nmdc_ms_metadata_gen/gcms_metab_metadata_generator.py:682-695 | every KEGG identifier starts with "kegg:" |
| GcmsMetabolomics.IdentificationOf | nmdc_ms_metadata_gen/gcms_metab_metadata_generator.py:676-705 | a best hit yields an identification exactly when it has a ChEBI ID; its score is the hit's, its alternative identifiers the KEGG IDs, and its metabolite starts with "chebi:" |
| GcmsMetabolomics.ChebiRoundTrip | nmdc_ms_metadata_gen/gcms_metab_metadata_generator.py:680 | the ChEBI number is read back from `metabolite_identified` after the "chebi:" prefix |
| GcmsMetabolomics.IdentificationsMembers | nmdc_ms_metadata_gen/gcms_metab_metadata_generator.py:676-705 | the identifications are exactly those of the best hits that have a ChEBI ID |
| GcmsMetabolomics.IdentificationsSound | nmdc_ms_metadata_gen/gcms_metab_metadata_generator.py:676-705 | every identification produced is that of some best hit with a ChEBI ID |
| GcmsMetabolomics.IdentificationsComplete | nmdc_ms_metadata_gen/gcms_metab_metadata_generator.py:676-705 | every best hit with a ChEBI ID has its identification among those produced |
| GcmsMetabolomics.GenerateMetabIdentifications | nmdc_ms_metadata_gen/gcms_metab_metadata_generator.py:643-707 | the result is the identifications of the best hits of the peaks, in peak order |
| GcmsMetabolomics.IdentifyBestHits | nmdc_ms_metadata_gen/gcms_metab_metadata_generator.py:675-705 | the loop over the best hits builds exactly their identifications |
| GcmsMetabolomics.IdentificationsAreBestHits | nmdc_ms_metadata_gen/gcms_metab_metadata_generator.py:669-705 | every identification comes from the best hit of some peak, so there are at most as many as peaks |
| GcmsMetabolomics.HiddenChebiNotIdentified | nmdc_ms_metadata_gen/gcms_metab_metadata_generator.py:676-679 | a peak whose best hit lacks a ChEBI ID yields nothing, even when a weaker hit of it has one |
| GcmsMetabolomics.CheckCalibrationStandard | nmdc_ms_metadata_gen/gcms_metab_metadata_generator.py:312-313 | `run` goes on exactly when the standard is "fames", and raises ValueError otherwise |
| GcmsMetabolomics.CalibrationRecord | nmdc_ms_metadata_gen/gcms_metab_metadata_generator.py:584-593 | the calibration has its ID, its data object, internal False, target "retention_index" and standard "fames" |
| GcmsMetabolomics.Calibration | nmdc_ms_metadata_gen/gcms_metab_metadata_generator.py:578-601 | unless FAMES is truthy and the calibration external, ValueError without touching the pool; otherwise the record around the ID the CalibrationInformation pool hands out |
| GcmsMetabolomics.GenerateCalibration | nmdc_ms_metadata_gen/gcms_metab_metadata_generator.py:538-601 | the calibration and the CalibrationInformation pool afterwards are those `Calibration` gives; no other pool changes |
| GcmsMetabolomics.FirstIndexOf | nmdc_ms_metadata_gen/gcms_metab_metadata_generator.py:505-508 | the first row holding the file; none for a null file, as `eq` is false on NaN |
| GcmsMetabolomics.CalibrationSource | nmdc_ms_metadata_gen/gcms_metab_metadata_generator.py:503-510 | the URL is the `calibration_file_url` of the first row with the file when the column exists (IndexError when no row matches, which is the case for a null file), and None without the column |
| GcmsMetabolomics.CalibrationFiles | nmdc_ms_metadata_gen/gcms_metab_metadata_generator.py:497 | the distinct calibration files, each once, covering every row's file |
| GcmsMetabolomics.CalibrationsStop | nmdc_ms_metadata_gen/gcms_metab_metadata_generator.py:498-536 | once a file's step has raised, the remaining files change nothing |
| GcmsMetabolomics.CalibrationsLinked | nmdc_ms_metadata_gen/gcms_metab_metadata_generator.py:497-536 | a run over distinct files that raises nothing makes one data object and one calibration per file, with the next IDs of each pool, calibration `k` pointing at data object `k`, and each row of a file carrying that file's calibration ID |
| GcmsMetabolomics.EveryRowCalibrated | nmdc_ms_metadata_gen/gcms_metab_metadata_generator.py:534-536 | on success, every row ends up with the calibration ID minted for its file |
| GcmsMetabolomics.AddCalibrationObject | nmdc_ms_metadata_gen/gcms_metab_metadata_generator.py:512-522 | the file's raw data object is built from the DataObject pool and appended to the database, as the run specification's object step states |
| GcmsMetabolomics.AddCalibration | nmdc_ms_metadata_gen/gcms_metab_metadata_generator.py:524-536 | the calibration of that object is appended and its ID written into the file's rows, as the run specification's calibration step states |
| GcmsMetabolomics.CalibrateFile | nmdc_ms_metadata_gen/gcms_metab_metadata_generator.py:503-536 | one loop turn changes frame, database and pools as the run specification's step for that file |
| GcmsMetabolomics.GenerateCalibrationId | nmdc_ms_metadata_gen/gcms_metab_metadata_generator.py:471-536 | a frame without `calibration_file` raises KeyError; otherwise frame, database, pools and error are those of the run over the distinct files; no other pool changes |
| GcmsMetabolomics.PrepareCalibrations | nmdc_ms_metadata_gen/gcms_metab_metadata_generator.py:312-351 | a standard other than "fames" raises ValueError with nothing changed; calibrations are generated exactly when the frame has no `calibration_id` or only nulls there, and otherwise nothing changes |
| NomMetadata.SrfaCalibrationRecord | nmdc_ms_metadata_gen/nom_metadata_generator.py:589-598 | the record carries the minted ID, the calibration data object's ID, `internal_calibration` false, target "mass_charge_ratio" and standard "srfa" |
| NomMetadata.SrfaCalibration | nmdc_ms_metadata_gen/nom_metadata_generator.py:543-606 | anything but an external SRFA calibration raises ValueError and leaves the pool alone; otherwise the CalibrationInformation pool advances by one take and a successful take yields the SRFA record around that ID |
| NomMetadata.GenerateSrfaCalibration | nmdc_ms_metadata_gen/nom_metadata_generator.py:543-606 | the result and the CalibrationInformation pool are those of `SrfaCalibration` on the old pool; every other type's pool is unchanged |
| NomMetadata.ReferenceLookup | nmdc_ms_metadata_gen/nom_metadata_generator.py:394-440 | a found ID is returned; a failed search raises ValueError exactly when nothing was found and RuntimeError otherwise |
| NomMetadata.SrfaLookup | nmdc_ms_metadata_gen/nom_metadata_generator.py:442-484 | a found ID is returned, nothing found gives None, any other failure raises RuntimeError |
| NomMetadata.LookupsAgree | nmdc_ms_metadata_gen/nom_metadata_generator.py:394-484 | on every search outcome the two lookups agree: the same ID, RuntimeError on the same failures, and ValueError of the reference lookup exactly where the SRFA lookup gives None |
| NomMetadata.ReferenceCalibrationId | nmdc_ms_metadata_gen/nom_metadata_generator.py:289-295 | a given `calibration_id` is used as it is, otherwise a given `ref_calibration_path` is looked up, otherwise the attribute stays unassigned |
| NomMetadata.SrfaChoice | nmdc_ms_metadata_gen/nom_metadata_generator.py:297-318 | a given `srfa_calib_id` is used, otherwise the stem of a given `srfa_calib_path` is looked up and a record is generated when nothing is found, otherwise no SRFA calibration |
| NomMetadata.ReferencePrecedence | nmdc_ms_metadata_gen/nom_metadata_generator.py:289-295 | with `calibration_id` given no lookup happens, whatever the search says; a path is looked up only without one |
| NomMetadata.SrfaPrecedence | nmdc_ms_metadata_gen/nom_metadata_generator.py:297-318 | with `srfa_calib_id` given the search is ignored; a path whose stem is not found falls back to generating a calibration |
| NomMetadata.NotNone | nmdc_ms_metadata_gen/nom_metadata_generator.py:325 | the kept values are exactly the non-None ones |
| NomMetadata.NotNoneAppend | nmdc_ms_metadata_gen/nom_metadata_generator.py:325 | filtering keeps the order of the list |
| NomMetadata.CalibrationIdList | nmdc_ms_metadata_gen/nom_metadata_generator.py:321-325 | corrected (Findings row 3): at most two IDs, none None: the reference calibration first and the SRFA one last, each present exactly when it is set |
| NomMetadata.CalibrationIdListAsWritten | nmdc_ms_metadata_gen/nom_metadata_generator.py:321-325 | reading an attribute that was never assigned raises AttributeError; otherwise the list is `CalibrationIdList` |
| NomMetadata.RowWithoutSrfaColumnsRaises | nmdc_ms_metadata_gen/nom_metadata_generator.py:289-325 | a row with only `calibration_id` leaves the SRFA attribute unassigned, so the list as written raises AttributeError while the intended list holds the reference ID |
| NomMetadata.CalibrationUrlAsWritten | nmdc_ms_metadata_gen/nom_metadata_generator.py:512-516 | without `calibration_file_url` the URL is None; with it the URL is read from `calibration_file`, and KeyError when that column is missing |
| NomMetadata.CalibrationUrl | nmdc_ms_metadata_gen/nom_metadata_generator.py:512-516 | corrected (Findings row 4): the URL is the `calibration_file_url` cell when the row has that column, otherwise None |
| NomMetadata.CalibrationUrlFromWrongColumn | nmdc_ms_metadata_gen/nom_metadata_generator.py:512-516 | a row with only `calibration_file_url` raises KeyError as written, and a row with both columns gets the wrong file as URL |
| NomMetadata.GeneratedCalibration | nmdc_ms_metadata_gen/nom_metadata_generator.py:487-541 | on success the standard is "srfa", one raw data object and one SRFA calibration of it are appended and the calibration's ID is returned; on failure no calibration is appended; a non-SRFA standard fails; the data-object pool advances by exactly one take |
| NomMetadata.GenerateCalibrationIds | nmdc_ms_metadata_gen/nom_metadata_generator.py:487-541 | with the corrected URL of Findings row 4: the database, the pools and the result are those of `GeneratedCalibration` on the old state, with the URL from the corrected `CalibrationUrl`; other pools are unchanged |
| NomMetadata.RowCalibrations | nmdc_ms_metadata_gen/nom_metadata_generator.py:289-325 | with the corrected list of Findings row 3: on success both sources resolved, the list has at most two non-None IDs, a given `calibration_id` is first and a given `srfa_calib_id` last; records change only when an SRFA calibration is generated |
| NomMetadata.RowCalibrationIds | nmdc_ms_metadata_gen/nom_metadata_generator.py:289-325 | with the corrected list of Findings row 3: the database, the pools and the result are those of `RowCalibrations` on the old state; other pools are unchanged |
| NomMetadata.NomAnalysisRecord | nmdc_ms_metadata_gen/nom_metadata_generator.py:667-684 | the record has the ID, the NomAnalysis type, the raw data as input, the processed data as output, and the calibrations, data generation, resource and QC fields as given |
| NomMetadata.NomAnalysisNotCleaned | nmdc_ms_metadata_gen/nom_metadata_generator.py:685-686 | a record with a None QC status or calibration list differs from its cleaned form, so the dropped result of `clean_dict` matters |
| NomMetadata.GenerateNomAnalysis | nmdc_ms_metadata_gen/nom_metadata_generator.py:609-688 | a given incremented ID is used without touching the pool; otherwise one NomAnalysis ID is taken and ".1" appended, a failed take is returned as the error; other pools are unchanged |
| NomMetadata.FirstRerunOfMintedId | nmdc_ms_metadata_gen/nom_metadata_generator.py:665 | the first rerun of a freshly minted analysis gets the ID ending in ".2", version 1 before it |
| NomMetadata.RegularFiles | nmdc_ms_metadata_gen/nom_metadata_generator.py:764 | exactly the listed entries that are files are kept |
| NomMetadata.ProcessedDirectory | nmdc_ms_metadata_gen/nom_metadata_generator.py:757 | the path is the row's `processed_data_directory` string; a missing column or non-string cell is an error |
| NomMetadata.WithKinds | nmdc_ms_metadata_gen/nom_metadata_generator.py:766-843 | each file is paired with the kind its suffix gives, in order |
| NomMetadata.FileObject | nmdc_ms_metadata_gen/nom_metadata_generator.py:770-843 | the object generated for a file carries the ID it was given |
| NomMetadata.Objects | nmdc_ms_metadata_gen/nom_metadata_generator.py:770-843 | one data object per stored file |
| NomMetadata.ScanNext | nmdc_ms_metadata_gen/nom_metadata_generator.py:766-843 | one more file extends the loop by exactly one step |
| NomMetadata.ScanStops | nmdc_ms_metadata_gen/nom_metadata_generator.py:766-843 | once a step has raised, the remaining files change nothing |
| NomMetadata.ParameterObject | nmdc_ms_metadata_gen/nom_metadata_generator.py:793-843 | there is a parameter object exactly when a parameter file was seen, and it carries that file's ID |
| NomMetadata.ScanOutcome | nmdc_ms_metadata_gen/nom_metadata_generator.py:844 | the processed IDs and parameter object are returned exactly when nothing raised and a parameter file was seen; without one the return raises NameError |
| NomMetadata.StoreFileObject | nmdc_ms_metadata_gen/nom_metadata_generator.py:766-843 | after storing one file the database, the analysis times, the processed IDs and the parameter object match the scan state after that file |
| NomMetadata.StepFails | nmdc_ms_metadata_gen/nom_metadata_generator.py:770-843 | a step whose ID take fails stops the loop with that error |
| NomMetadata.StepGenerates | nmdc_ms_metadata_gen/nom_metadata_generator.py:770-843 | a step whose ID take succeeds generates the file's object and stores it as its kind says |
| NomMetadata.ScanFile | nmdc_ms_metadata_gen/nom_metadata_generator.py:766-843 | one loop iteration moves the database, the analysis, the pool and the returned values to the next scan state; other pools are unchanged |
| NomMetadata.CreateProcessedDataObjects | nmdc_ms_metadata_gen/nom_metadata_generator.py:727-844 | a bad directory cell or an empty listing raises and changes nothing; otherwise the regular files are scanned in listing order, the state is that of the scan and the result is `ScanOutcome`; only the DataObject pool changes |
| NomMetadata.Kept | nmdc_ms_metadata_gen/nom_metadata_generator.py:766-843 | the kept files are a subsequence of the files |
| NomMetadata.KeptFiles | nmdc_ms_metadata_gen/nom_metadata_generator.py:766-843 | a file is kept exactly when its suffix gives a kind that is not ignored |
| NomMetadata.KeptMembers | nmdc_ms_metadata_gen/nom_metadata_generator.py:766-843 | a file is kept exactly when its kind is not ignored |
| NomMetadata.StoredPairs | nmdc_ms_metadata_gen/nom_metadata_generator.py:789-827 | no more stored pairs than IDs |
| NomMetadata.StoredIds | nmdc_ms_metadata_gen/nom_metadata_generator.py:791-827 | one processed ID per stored pair |
| NomMetadata.StoredMembers | nmdc_ms_metadata_gen/nom_metadata_generator.py:789-827 | the stored pairs are exactly the kept tables and QC plots with their IDs, and the processed IDs are theirs in the same order |
| NomMetadata.LastOfKind | nmdc_ms_metadata_gen/nom_metadata_generator.py:793-843 | the position of the last kept file of a kind, and none exactly when there is no such file |
| NomMetadata.TimedTwice | nmdc_ms_metadata_gen/nom_metadata_generator.py:784-786 | timing the analysis twice keeps only the second times, so the last table decides |
| NomMetadata.ScanShape | nmdc_ms_metadata_gen/nom_metadata_generator.py:766-843 | the loop takes one pool ID per kept file and its state is the stored pairs, processed IDs, last parameter file and last table times of those files |
| NomMetadata.ShapedStep | nmdc_ms_metadata_gen/nom_metadata_generator.py:766-843 | one more file keeps the loop state in that shape |
| NomMetadata.ShapedKept | nmdc_ms_metadata_gen/nom_metadata_generator.py:766-843 | a kept file keeps the shape, stopping the loop on a failed take |
| NomMetadata.ShapedStored | nmdc_ms_metadata_gen/nom_metadata_generator.py:789-843 | a kept file with an ID is stored as its kind says |
| NomMetadata.ParameterNotListed | nmdc_ms_metadata_gen/nom_metadata_generator.py:791-843 | when the IDs handed out are distinct the parameter file's ID is never a processed ID |
| NomMetadata.WithoutIds | nmdc_ms_metadata_gen/nom_metadata_generator.py:377-381 | pruning never adds objects |
| NomMetadata.WithoutIdsMembers | nmdc_ms_metadata_gen/nom_metadata_generator.py:377-381 | an object survives exactly when its ID is not a processed ID |
| NomMetadata.WithoutIdsAppend | nmdc_ms_metadata_gen/nom_metadata_generator.py:377-381 | pruning works piece by piece, keeping the survivors' order |
| NomMetadata.WithoutIdsKeepsUnlisted | nmdc_ms_metadata_gen/nom_metadata_generator.py:377-381 | objects none of whose IDs is listed come through unchanged |
| NomMetadata.WithoutIdsNone | nmdc_ms_metadata_gen/nom_metadata_generator.py:377-381 | objects whose every ID is listed are all dropped |
| NomMetadata.FinishRow | nmdc_ms_metadata_gen/nom_metadata_generator.py:371-386 | on a failed QC the analysis loses `has_output` and every processed object is dropped; then the mass spectrometry record, the raw data and parameter objects and the analysis are appended |
| NomMetadata.FailedQcPruned | nmdc_ms_metadata_gen/nom_metadata_generator.py:371-386 | after a failed QC the set holds no processed object, keeps the other objects in order and ends with the raw data and parameter objects |
| LcmsMetadata.FirstSuffix | nmdc_ms_metadata_gen/lcms_metadata_generator.py:180-182 | a first suffix never contains a dot, and there is one exactly when the name does not end in a dot and has a dot after its leading dots |
| LcmsMetadata.FirstSuffixOf | nmdc_ms_metadata_gen/lcms_metadata_generator.py:180-182 | a dot-free stem followed by ".ext" and any further suffixes has "ext" as its first suffix |
| LcmsMetadata.CompressedCsvIsCsv | nmdc_ms_metadata_gen/lcms_metadata_generator.py:180-203 | a compressed annotation file such as ".csv.gz" counts as "csv" |
| LcmsMetadata.KindOfSuffix | nmdc_ms_metadata_gen/lcms_metadata_generator.py:183-248 | "toml" exactly gives the parameter file, "csv" the annotations, "hdf5" the processed data, no suffix is skipped, anything else is unexpected |
| LcmsMetadata.Kinded | nmdc_ms_metadata_gen/lcms_metadata_generator.py:179-248 | each file is paired with the kind of its first suffix, in order |
| LcmsMetadata.DirObject | nmdc_ms_metadata_gen/lcms_metadata_generator.py:186-235 | the object generated for a file carries the ID it was given |
| LcmsMetadata.DirObjects | nmdc_ms_metadata_gen/lcms_metadata_generator.py:186-237 | one data object per made file |
| LcmsMetadata.DirScanNext | nmdc_ms_metadata_gen/lcms_metadata_generator.py:179-248 | one more file extends the loop by exactly one step |
| LcmsMetadata.DirScanStops | nmdc_ms_metadata_gen/lcms_metadata_generator.py:179-248 | once a step has raised, the remaining files change nothing |
| LcmsMetadata.MissingObject | nmdc_ms_metadata_gen/lcms_metadata_generator.py:251-258 | the check passes exactly when all three locals hold objects; it raises NameError only when one was never assigned, otherwise ValueError |
| LcmsMetadata.DirOutcome | nmdc_ms_metadata_gen/lcms_metadata_generator.py:250-262 | the parameter ID and processed IDs are returned exactly when the loop did not raise and the check passes; a loop error is returned as it is |
| LcmsMetadata.RowStartAsWritten | nmdc_ms_metadata_gen/lcms_metadata_generator.py:277-286 | the locals are unassigned exactly on the first row and None on later rows; they never hold an object at the start of a row |
| LcmsMetadata.StoreDirObject | nmdc_ms_metadata_gen/lcms_metadata_generator.py:184-245 | after one file the database, the analysis times and the locals match the loop state after that file |
| LcmsMetadata.DirStepFails | nmdc_ms_metadata_gen/lcms_metadata_generator.py:186-235 | a step whose ID take fails stops the loop with that error |
| LcmsMetadata.DirStepMakes | nmdc_ms_metadata_gen/lcms_metadata_generator.py:186-245 | a step whose ID take succeeds makes the file's object and records it as its kind says |
| LcmsMetadata.ClassifyFile | nmdc_ms_metadata_gen/lcms_metadata_generator.py:179-248 | one loop iteration moves the database, the analysis, the pool and the locals to the next loop state |
| LcmsMetadata.ScanDirectory | nmdc_ms_metadata_gen/lcms_metadata_generator.py:179-248 | the loop over the regular files leaves the database, the analysis and the pool in the loop state `DirScan` gives, stops at the first error and returns it, and otherwise returns the locals of that state |
| LcmsMetadata.ProcessedDirectoryObjects | nmdc_ms_metadata_gen/lcms_metadata_generator.py:158-258 | corrected (Findings row 5): an empty listing raises FileNotFoundError and a number of regular files other than three raises ValueError, both changing nothing; otherwise the files are classified in order, the state is that of the loop and the result is `DirOutcome`; only the DataObject pool changes |
| LcmsMetadata.ErrorStays | nmdc_ms_metadata_gen/lcms_metadata_generator.py:179-248 | once the loop has raised, the exception stays |
| LcmsMetadata.NoUnexpected | nmdc_ms_metadata_gen/lcms_metadata_generator.py:246-248 | a loop that does not raise saw no file of an unexpected kind |
| LcmsMetadata.SlotAfterScan | nmdc_ms_metadata_gen/lcms_metadata_generator.py:179-248 | after a loop that does not raise, a kind's local holds an object exactly when a file of that kind was seen, and is as it started otherwise |
| LcmsMetadata.AllKindsOrValueError | nmdc_ms_metadata_gen/lcms_metadata_generator.py:171-258 | from locals reset to None, a loop that does not raise returns the objects exactly when all three kinds were seen, and otherwise raises ValueError |
| LcmsMetadata.FirstRowMissingParametersRaisesNameError | nmdc_ms_metadata_gen/lcms_metadata_generator.py:251-258 | on the first row a directory without a parameter file raises NameError instead of the intended ValueError |
| LcmsMetadata.MadeFiles | nmdc_ms_metadata_gen/lcms_metadata_generator.py:179-248 | the made files are those of a known kind, in directory order |
| LcmsMetadata.Zip | nmdc_ms_metadata_gen/lcms_metadata_generator.py:179-248 | files paired with their IDs, one pair per file |
| LcmsMetadata.ListedIds | nmdc_ms_metadata_gen/lcms_metadata_generator.py:220-237 | the processed IDs come from the made files only |
| LcmsMetadata.ListedMembers | nmdc_ms_metadata_gen/lcms_metadata_generator.py:220-237 | the processed IDs are exactly the IDs of the annotation and HDF5 files, in order |
| LcmsMetadata.LastOf | nmdc_ms_metadata_gen/lcms_metadata_generator.py:179-248 | the position of the last file of a kind, and none exactly when there is no such file |
| LcmsMetadata.DirShape | nmdc_ms_metadata_gen/lcms_metadata_generator.py:179-248 | the loop takes one pool ID per made file, stores the objects in order and lists the processed IDs |
| LcmsMetadata.DirShapeStep | nmdc_ms_metadata_gen/lcms_metadata_generator.py:179-248 | one more file of a known kind keeps the loop in that shape |
| LcmsMetadata.DirShapedMade | nmdc_ms_metadata_gen/lcms_metadata_generator.py:179-248 | a made file keeps the shape, stopping the loop on a failed take |
| LcmsMetadata.DirShapedStored | nmdc_ms_metadata_gen/lcms_metadata_generator.py:184-245 | a made file with an ID is stored and recorded as its kind says |
| LcmsMetadata.SlotAfterAppend | nmdc_ms_metadata_gen/lcms_metadata_generator.py:184-245 | one more made file sets its kind's local to its object and leaves the others |
| LcmsMetadata.AnalysisAfterAppend | nmdc_ms_metadata_gen/lcms_metadata_generator.py:239-245 | an HDF5 file's times replace the earlier ones; other files leave the analysis |
| LcmsMetadata.ParameterNotListed | nmdc_ms_metadata_gen/lcms_metadata_generator.py:201-237 | when the IDs handed out are distinct the parameter file's ID is never a processed ID |
| LcmsMetadata.ProcessedDirectoryShape | nmdc_ms_metadata_gen/lcms_metadata_generator.py:158-262 | a directory that yields its three objects took successive pool IDs for its files, stored them in order, lists the annotation and HDF5 IDs and returns the last parameter file's ID |
| LcmsMetadata.HasInput | nmdc_ms_metadata_gen/lcms_metadata_generator.py:259-262 | the inputs are the parameter object, the raw data object, then the configured existing objects |
| LcmsMetadata.FinishRunRow | nmdc_ms_metadata_gen/lcms_metadata_generator.py:259-275 | the mass spectrometry record outputs the raw data, the analysis takes the inputs and the processed outputs, and the record, the raw data object and the analysis are appended |
| LcmsMetadata.FinishRerunRow | nmdc_ms_metadata_gen/lcms_metadata_generator.py:482-494 | only the analysis changes, taking the inputs and processed outputs, and only it is appended |
| BiosampleGenerator.BiosampleDict | nmdc_ms_metadata_gen/biosample_generator.py:194-200 | the record holds the provenance, the ID when it is not blank, and exactly the metadata's non-blank entries otherwise |
| BiosampleGenerator.BiosampleFromPool | nmdc_ms_metadata_gen/biosample_generator.py:185-200 | metadata without an `id` entry raises KeyError; a given ID leaves the pool alone and succeeds; every record built is the metadata's biosample |
| BiosampleGenerator.GivenIdKept | nmdc_ms_metadata_gen/biosample_generator.py:185-200 | a given non-blank ID is kept with the provenance and the pool is untouched |
| BiosampleGenerator.MintedIdTaken | nmdc_ms_metadata_gen/biosample_generator.py:186-192 | metadata whose ID is None gets the last ID of the refilled pool, which no longer holds it |
| BiosampleGenerator.GenerateBiosample | nmdc_ms_metadata_gen/biosample_generator.py:164-202 | the record and the Biosample pool are those of `BiosampleFromPool` on the old pool; no pool changes unless the ID is None, and other types' pools never change |
| BiosampleGenerator.StringNames | nmdc_ms_metadata_gen/biosample_generator.py:127 | the names are exactly the string `biosample.name` cells of the rows |
| BiosampleGenerator.GroupNames | nmdc_ms_metadata_gen/biosample_generator.py:127-129 | the group keys are sorted, distinct, and exactly the string names of the frame |
| BiosampleGenerator.FirstRowIsFirst | nmdc_ms_metadata_gen/biosample_generator.py:130 | a group's first row has the name and no earlier row does |
| BiosampleGenerator.BiosamplesStop | nmdc_ms_metadata_gen/biosample_generator.py:129-162 | once a group has raised, the remaining groups change nothing |
| BiosampleGenerator.Pending | nmdc_ms_metadata_gen/biosample_generator.py:129-131 | there are no more pending names than groups |
| BiosampleGenerator.PendingMembers | nmdc_ms_metadata_gen/biosample_generator.py:129-131 | a name is pending exactly when its group's first row has no biosample ID |
| BiosampleGenerator.PendingDistinct | nmdc_ms_metadata_gen/biosample_generator.py:129-131 | distinct group names give distinct pending names |
| BiosampleGenerator.BuiltFromAppend | nmdc_ms_metadata_gen/biosample_generator.py:148-162 | a biosample built from a name's metadata extends the built list by that name |
| BiosampleGenerator.StepOk | nmdc_ms_metadata_gen/biosample_generator.py:129-162 | a group that ends without error either has an ID and changes nothing or generated one biosample |
| BiosampleGenerator.RowLinkedStep | nmdc_ms_metadata_gen/biosample_generator.py:157-161 | a generating step gives the new ID to the rows of its name and changes no other row |
| BiosampleGenerator.LinkedStep | nmdc_ms_metadata_gen/biosample_generator.py:148-162 | a generating step for a new name keeps the run linked |
| BiosampleGenerator.LinkedStart | nmdc_ms_metadata_gen/biosample_generator.py:127-129 | a run that has not started is linked with no names |
| BiosampleGenerator.BiosamplesLinked | nmdc_ms_metadata_gen/biosample_generator.py:129-162 | a run over distinct names that ends without error has one biosample per pending name and its rows linked to them |
| BiosampleGenerator.MissingColumnStopsRun | nmdc_ms_metadata_gen/biosample_generator.py:132-146 | with a required column missing, the first pending group raises ValueError naming the missing columns before any biosample or ID is made |
| BiosampleGenerator.CheckedRowsLinked | nmdc_ms_metadata_gen/biosample_generator.py:123-162 | on success every row of a group without an ID holds the ID of the one biosample generated from that group's metadata, and rows of groups with an ID keep it |
| BiosampleGenerator.LinkedRow | nmdc_ms_metadata_gen/biosample_generator.py:157-161 | a named row of a linked run holds its group's new biosample ID, or its old ID when the group had one |
| BiosampleGenerator.CheckGroup | nmdc_ms_metadata_gen/biosample_generator.py:129-162 | one loop iteration moves the frame, the database and the pool to the next run state; other pools are unchanged |
| BiosampleGenerator.CheckGroups | nmdc_ms_metadata_gen/biosample_generator.py:129-162 | the loop over the group names leaves the frame, the database and the pool in the state of the run over those names, with its error, and stops at the first error |
| BiosampleGenerator.CheckBiosampleRows | nmdc_ms_metadata_gen/biosample_generator.py:123-162 | without `biosample.name` ValueError and nothing changes; otherwise the state is the loop over the sorted group names, stopping at the first error |
| BiosampleGenerator.LoadBioCredentials | nmdc_ms_metadata_gen/biosample_generator.py:226-248 | a set environment key wins; a returned key is truthy; FileNotFoundError exactly when there is no key in the environment and a named configuration file is missing; every other failure is ValueError |
| BiosampleGenerator.ConfigFileFallback | nmdc_ms_metadata_gen/biosample_generator.py:228-241 | without an environment key a readable configuration file supplies a truthy key, and one without it gives ValueError |
| BiosampleGenerator.NoKeyAnywhere | nmdc_ms_metadata_gen/biosample_generator.py:242-246 | without an environment key and without a configuration file the key is missing: ValueError |
| SchemaBridge.PrimaryTypecode | nmdc_ms_metadata_gen/schema_bridge.py:35-41 | a set preferred typecode wins; otherwise the first compatible typecode, and None exactly when there is none |
| SchemaBridge.PrimaryIsCompatibleOrPreferred | nmdc_ms_metadata_gen/schema_bridge.py:35-41 | a primary typecode is the preferred one or one of the compatible ones |
| SchemaBridge.Curie | nmdc_ms_metadata_gen/schema_bridge.py:74 | the CURIE is the class URI when set, otherwise "nmdc:" and the class name |
| SchemaBridge.MetadataOf | nmdc_ms_metadata_gen/schema_bridge.py:74-88 | the metadata carries the class name and CURIE; a class whose `id` slot has no pattern has no typecodes and no primary typecode |
| SchemaBridge.Metadata | nmdc_ms_metadata_gen/schema_bridge.py:73-88 | one metadata record per class of the view, in order |
| SchemaBridge.IndexLastHoldsLast | nmdc_ms_metadata_gen/schema_bridge.py:90-91 | a class name or CURIE is indexed, and maps to the last class that has it |
| SchemaBridge.IndexLastKeys | nmdc_ms_metadata_gen/schema_bridge.py:90-91 | the name and CURIE indexes hold no key but those of their classes |
| SchemaBridge.TypecodeKeys | nmdc_ms_metadata_gen/schema_bridge.py:93-104 | the typecode index holds each class only under its own non-empty primary typecode |
| SchemaBridge.TypecodeFirstWins | nmdc_ms_metadata_gen/schema_bridge.py:93-104 | on a typecode conflict the first class seen keeps the code |
| SchemaBridge.CodeNotYetIndexed | nmdc_ms_metadata_gen/schema_bridge.py:93-104 | a code that no class has as primary typecode is not indexed |
| SchemaBridge.GetSchemaTypeRegistry | nmdc_ms_metadata_gen/schema_bridge.py:64-106 | the registry is the three indexes built from the metadata of the view's classes |
| SchemaBridge.EveryClassIndexed | nmdc_ms_metadata_gen/schema_bridge.py:89-91 | with distinct class names every class is found under its name, with its own metadata, and under its CURIE |
| SchemaBridge.LastWithKey | nmdc_ms_metadata_gen/schema_bridge.py:90-91 | the last class from a position on with the same key exists and no later class has the key |
| SchemaBridge.MetadataForClass | nmdc_ms_metadata_gen/schema_bridge.py:109-118 | the metadata exactly when the class is registered, otherwise KeyError naming the class |
| SchemaBridge.MetadataForTypecode | nmdc_ms_metadata_gen/schema_bridge.py:121-130 | the metadata exactly when the typecode is registered, otherwise KeyError naming it |
| SchemaBridge.CurieForClass | nmdc_ms_metadata_gen/schema_bridge.py:133-136 | the registered class's CURIE, otherwise the lookup's KeyError |
| SchemaBridge.CurieOfDefinedClass | nmdc_ms_metadata_gen/schema_bridge.py:133-136 | in a registry built from a view with distinct names, a class's CURIE is its class URI or "nmdc:" and its name |
| SchemaBridge.TypecodeForCurieAsWritten | nmdc_ms_metadata_gen/schema_bridge.py:139-146 | as written, the whole metadata record under the CURIE is returned, KeyError when there is none |
| SchemaBridge.TypecodeForCurie | nmdc_ms_metadata_gen/schema_bridge.py:139-146 | corrected (Findings row 6): the primary typecode of the class under the CURIE, KeyError when there is none |
| SchemaBridge.BiosampleCurieGivesRecord | nmdc_ms_metadata_gen/schema_bridge.py:139-146 | for the Biosample class the lookup as written returns the metadata record where the typecode "bsm" is promised |
| SchemaBridge.KeptProcessTypes | nmdc_ms_metadata_gen/schema_bridge.py:155-167 | a name is kept exactly when it is a descendant other than MaterialProcessing with a runtime class that is a MaterialProcessing |
| SchemaBridge.MaterialProcessingRegistry | nmdc_ms_metadata_gen/schema_bridge.py:149-169 | the registry's names are exactly the kept names, each mapped to its runtime class |
| SchemaBridge.ProcessTypeListing | nmdc_ms_metadata_gen/schema_bridge.py:172-175 | the listing is sorted, without repeats, and holds exactly the registry's names |
| SchemaBridge.MaterialProcessingClass | nmdc_ms_metadata_gen/schema_bridge.py:178-188 | the registered class exactly when the type is registered, otherwise KeyError naming the type and listing the available ones |
| SchemaBridge.MaterialProcessingItselfUnknown | nmdc_ms_metadata_gen/schema_bridge.py:155-188 | asking for MaterialProcessing itself raises KeyError whose listing is sorted and is exactly the registry |
| StudyMetadata.RequireColumns | nmdc_ms_metadata_gen/study_metadata.py:139-157 | the frame unchanged exactly when every required column is present; otherwise ValueError naming exactly the missing columns, in the required order |
| StudyMetadata.AdditionalInfo | nmdc_ms_metadata_gen/study_metadata.py:130-157 | the CSV exactly when it has biosample_id, raw_data_identifier, stepname, slotname and value; otherwise ValueError naming exactly the missing ones in that order |
| StudyMetadata.AdditionalInfoNamesInOrder | nmdc_ms_metadata_gen/study_metadata.py:141-155 | a CSV with only value and biosample_id is told raw_data_identifier, stepname and slotname, in that order |
| StudyMetadata.MappingInfo | nmdc_ms_metadata_gen/study_metadata.py:159-184 | the CSV exactly when it has biosample_id, raw_data_identifier and processedsample_placeholder; otherwise ValueError naming exactly the missing ones in order |
| StudyMetadata.AbsentFields | nmdc_ms_metadata_gen/study_metadata.py:76-83 | the absent fields are exactly those no record has, and none when every field is in some record |
| StudyMetadata.Exploded | nmdc_ms_metadata_gen/study_metadata.py:86 | exploding a cell never yields nothing: an empty list gives one NaN |
| StudyMetadata.ExplodedKeepsItems | nmdc_ms_metadata_gen/study_metadata.py:86 | every item of a list, and every value that is not a list, survives the explode |
| StudyMetadata.AnalyteOf | nmdc_ms_metadata_gen/study_metadata.py:91-93 | the result is never an omics category, and a value changes exactly when it is metabolome, lipidome or metaproteome |
| StudyMetadata.AnalyteOfIdempotent | nmdc_ms_metadata_gen/study_metadata.py:91-93 | renaming twice renames once |
| StudyMetadata.OutputRows | nmdc_ms_metadata_gen/study_metadata.py:90 | one row per output of the input |
| StudyMetadata.DataGenerationFrame | nmdc_ms_metadata_gen/study_metadata.py:76-103 | KeyError naming the fields no record has; on success the renamed columns and only kept inputs; it succeeds exactly when no field is absent and, for the string filter, every input is a string |
| StudyMetadata.GenerationRowsKept | nmdc_ms_metadata_gen/study_metadata.py:86-90 | every row's input passes the filter |
| StudyMetadata.DataGenerationMetadataAsWritten | nmdc_ms_metadata_gen/study_metadata.py:66-105 | as written, only inputs starting with "nmdc:bsm" survive |
| StudyMetadata.DataGenerationMetadata | nmdc_ms_metadata_gen/study_metadata.py:66-105 | corrected (Findings row 7): it succeeds exactly when no kept field is absent from every record, and the surviving inputs are biosamples or processed samples |
| StudyMetadata.InputRowsMembers | nmdc_ms_metadata_gen/study_metadata.py:86-90 | a row comes from a record's inputs exactly when it pairs a kept input with an output |
| StudyMetadata.GenerationRowsMembers | nmdc_ms_metadata_gen/study_metadata.py:86-90 | a row is in the frame exactly when some record yields it for one of its kept inputs and one of its outputs |
| StudyMetadata.ProducedRowFields | nmdc_ms_metadata_gen/study_metadata.py:76-103 | a row holds exactly the output columns: the record's ID and name, one kept input, one output, the renamed analyte and the extra fields |
| StudyMetadata.EveryKeptPairHasRow | nmdc_ms_metadata_gen/study_metadata.py:86-90 | every kept input of a record paired with every output has its row |
| StudyMetadata.ProcessedSampleInputDropped | nmdc_ms_metadata_gen/study_metadata.py:87-89 | a record whose only input is a processed sample gives no row as written and its row under the intended filter |
| StudyMetadata.ProcessedSampleRows | nmdc_ms_metadata_gen/study_metadata.py:87-89 | the biosample-only filter drops the processed-sample input and the intended filter keeps it |
| StudyMetadata.ObjectRowsOf | nmdc_ms_metadata_gen/study_metadata.py:58-61 | one id/biosample_id row per data object of a record, carrying the record's biosample |
| StudyMetadata.StudyDataObjectMetadata | nmdc_ms_metadata_gen/study_metadata.py:48-64 | no records raise ValueError, no data object with an ID raises KeyError, and otherwise the rows have exactly the id and biosample_id columns |
| StudyMetadata.ObjectRowsKeys | nmdc_ms_metadata_gen/study_metadata.py:63 | every object row has exactly the id and biosample_id fields |
| StudyMetadata.ExistingMetadata | nmdc_ms_metadata_gen/study_metadata.py:107-128 | over the corrected frame of Findings row 7: every failure becomes the one ValueError; it succeeds exactly when both frames do, with the kept columns and the extra ones |
| StudyMetadata.MatchingObjectsMembers | nmdc_ms_metadata_gen/study_metadata.py:114-116 | the objects joined to a row are exactly those whose ID is its output |
| StudyMetadata.MergedMembers | nmdc_ms_metadata_gen/study_metadata.py:114-116 | the merge is the inner join of data-generation rows and data objects on output and ID |
| StudyMetadata.ExistingRowFields | nmdc_ms_metadata_gen/study_metadata.py:114-124 | a merged row has exactly the kept columns: the object's biosample and the data-generation row's other fields |
| StudyMetadata.StudyMetadataTest | nmdc_ms_metadata_gen/study_metadata.py:186-197 | the existing metadata's error is raised first; otherwise the test passes exactly when either frame is empty, and raises TypeError otherwise |
| MetadataInputCheck.MappingInfo | nmdc_ms_metadata_gen/metadata_input_check.py:168-190 | the CSV exactly when no required column is missing; otherwise ValueError whose names are exactly the required columns minus the CSV's |
| MetadataInputCheck.DataGenerationMetadata | nmdc_ms_metadata_gen/metadata_input_check.py:66-108 | None exactly when no record has any field; otherwise the data-generation frame under the given filter, as written (`BiosampleInputsOnly`, Findings row 9) or corrected (`SampleInputs`): it succeeds exactly when no kept field is absent from every record and, as written, every input is a string; its error is KeyError; every row's input passes the filter |
| MetadataInputCheck.DataGenerationMetadataAsWritten | nmdc_ms_metadata_gen/metadata_input_check.py:66-108 | as written (Findings row 9): None exactly when no record has any field; otherwise the study surveyor's as-written frame, so every surviving input is a string starting with "nmdc:bsm" |
| MetadataInputCheck.BiosampleColumn | nmdc_ms_metadata_gen/metadata_input_check.py:119 | one row per data object holding only its biosample ID |
| MetadataInputCheck.ExistingMetadata | nmdc_ms_metadata_gen/metadata_input_check.py:110-137 | every failure becomes the one ValueError; without data-generation fields the biosample column of the data objects; otherwise it succeeds exactly when the frame under the given filter and the data objects do, and under the corrected filter of Findings row 9 it is the study surveyor's merge over the corrected frame |
| MetadataInputCheck.NameClash | nmdc_ms_metadata_gen/metadata_input_check.py:228-236 | no error exactly when every existing row of the biosample has a string file name not containing the identifier; an error is ValueError naming the identifier or TypeError |
| MetadataInputCheck.TestRows | nmdc_ms_metadata_gen/metadata_input_check.py:203-236 | the rows pass exactly when each is clean; anything else raises, with KeyError, TypeError or ValueError |
| MetadataInputCheck.NmdcBranchError | nmdc_ms_metadata_gen/metadata_input_check.py:207-216 | the branch for an `nmdc:` identifier always raises: KeyError exactly when the existing metadata has no `raw_data_identifier` column, ValueError exactly when it has that column and no rows, TypeError otherwise |
| MetadataInputCheck.NmdcIdentifierRaises | nmdc_ms_metadata_gen/metadata_input_check.py:203-216 | the first row with an `nmdc:` identifier after clean rows makes the test raise that error: no such row is ever let through |
| MetadataInputCheck.MetadataTest | nmdc_ms_metadata_gen/metadata_input_check.py:192-236 | the existing metadata's error is raised first; an empty mapping passes; otherwise the test passes exactly when every row is clean |
| MetadataInputCheck.FileNameCheckSkipped | nmdc_ms_metadata_gen/metadata_input_check.py:228 | without a raw_file_name column, rows with string identifiers free of "nmdc:" pass |
| MetadataInputCheck.FileNameClashRaises | nmdc_ms_metadata_gen/metadata_input_check.py:232-236 | an identifier contained in a file name the biosample already has makes the test raise |
| MetadataInputCheck.ProcessedSampleInputDropped | nmdc_ms_metadata_gen/metadata_input_check.py:88-92 | as written, a study whose only data generation takes "nmdc:procsm-11-xyz" gets an empty frame; the corrected filter keeps that record's one row with that input |
| MetadataInputCheck.NoInputRaisesAsWritten | nmdc_ms_metadata_gen/metadata_input_check.py:88-135 | as written, a record with an empty `has_input` makes the frame raise KeyError and the existing metadata the one ValueError whatever the data objects; corrected, the existing metadata succeeds exactly when the data objects do |
| Frames.MissingFrom | nmdc_ms_metadata_gen/biosample_generator.py:140-142 | the missing columns are exactly the required ones not present, in the required order |
| Frames.NewColumns | nmdc_ms_metadata_gen/changesheet_generator.py:55 | the columns a concatenation adds are exactly those of the second frame that the first lacks |
| Frames.Concat | nmdc_ms_metadata_gen/changesheet_generator.py:55 | the concatenation has the first frame's columns followed by the new ones, and the rows of both frames in order, each widened to all columns |
| Frames.ConcatRows | nmdc_ms_metadata_gen/changesheet_generator.py:55 | the concatenation has the rows of the first frame, then those of the second, each widened |
| Frames.ConcatColumns | nmdc_ms_metadata_gen/changesheet_generator.py:55 | the first frame's columns come first, in order |
| Frames.ConcatSameColumns | nmdc_ms_metadata_gen/changesheet_generator.py:55 | frames with the same columns concatenate to their rows one after the other |
| Frames.AssignWhere | nmdc_ms_metadata_gen/biosample_generator.py:158-161 | rows whose key equals the value get the new cell, and the others keep theirs or get NaN in a new column |
| Frames.AssignWhereKeepsColumn | nmdc_ms_metadata_gen/biosample_generator.py:158-161 | every other column is left as it was |
| Frames.AssignColumn | nmdc_ms_metadata_gen/metadata_generator.py:1615-1616 | every row gets the value in the column, which is added when missing |

## Left out

- The NMDC API searches, the minting service and the BioPortal lookups are parameters: a minting function per request, search outcomes per file or name, and biosample metadata as a function of the row.
- The `requests.head` URL checks, `get_workflow_version`, `find_associated_ids`, `generate_mass_spec_fields`, `json_submit` and API validation are network calls and are not part of this model.
- File and format I/O: CSV, TOML and YAML loading and JSON dumping are not modelled. Frames, outlines and configuration values arrive already parsed.
- MD5 checksums and file sizes come from a file-system oracle (`FileSystem`). Directory listings and file times come from a listing and a clock oracle.
- Printing, `tqdm` progress bars and logging have no effect on the model.
- `material_processing_generator.py:37-129` (`run`) is orchestration over the modelled steps: loading files, looking up biosamples, saving CSV sheets and printing the summary. `output_summary` is printing too.
- `load_material_processing` reads the YAML outline from a file. The model's `Outline` object starts from an outline already loaded into its fields.
- `is_type`, `dynam_parse_biosample_metadata` and `generate_example_biosample_csv` depend on the schema library's dataclass fields and on BioPortal. They are not part of this model. `create_timestamp_value` and `create_text_value` only wrap a value.
- The LinkML validator and the `NMDCDatabase` instantiation inside `_validate_json_no_api` are one oracle of per-collection errors.
- Timestamps and similarity scores are integers. `strftime` and `datetime.fromtimestamp` are not modelled, and floats other than NaN are not modelled.
- `NmdcTypes.get` is called but never defined, so type CURIEs are constants of the model.
- `_get_qc_fields` is called but never defined, so the QC status and comment are parameters of the NOM row.
- The constant-only subclasses (DI NOM, LC/MS NOM, LC/MS lipidomics, LC/MS metabolomics) appear only as the configuration constants the parent models take.
- The legacy `src/` tree, the CLI entry points and `validate_yaml_outline.py` are not part of this model.
- MetadataGenerator.UpdateOutputs: modelled as written: `has_input` becomes the string or list given as `parameter_data_id`, not a list around it.
- YamlSpecifier.UpdateSampleOutputsOf: the steps are stated to be sorted by step number with the same members, but the order among steps with equal numbers is not stated. Pruned `has_output` lists keep their original order where the source builds a Python set. The `step_output_cache` is not modelled because it equals the outputs of a step that lie in the required set.
- YamlSpecifier.Outline.UpdateQuantityValue: the display of list and dict values in `has_raw_value` is not modelled.
- YamlSpecifier.StepNumber: `int()` accepting underscores, signs or Unicode digits is not modelled; only ASCII digit runs parse.
- BiosampleGenerator.CheckBiosampleRows: requires every `biosample.name` cell to be a string or missing; numeric group names and their sort order are not modelled.
- StudyMetadata.DataGenerationFrame: a `has_input` that is not a string or list is modelled as KeyError under the as-written filter. Extra columns that repeat a kept column collapse into one column. Merge suffixes for clashing column names are not modelled.
- StudyMetadata.StudyDataObjectMetadata: every study record is assumed to carry `biosample_id` and `data_objects`.
- MetadataInputCheck.MappingInfo: the missing columns are stated as a set; the order of the message, which follows Python set iteration, is not modelled.
- MetadataInputCheck.NmdcBranchError: takes the `raw_data_identifier` values of a non-empty existing frame to be strings, as the data-generation IDs are. A column holding only NaN, where pandas' `&` takes another path, is not distinguished.
- MetadataInputCheck.DataGenerationMetadata: the as-written filter is modelled as the `BiosampleInputsOnly` filter of Findings row 9, and its NaN inputs as KeyError, as in `StudyMetadata.DataGenerationFrame`.
- MetadataInputCheck.ExistingMetadata: under the `SampleInputs` filter it builds on the corrected frame of Findings row 9.
- StudyMetadata.ExistingMetadata: builds on the corrected helper of Findings row 7.
- StudyMetadata.DataGenerationMetadata: the corrected half of Findings row 7.
- MetadataGenerator.MissingIds: the corrected half of Findings row 1.
- MetadataGenerator.MintManifests: builds on the corrected helper of Findings row 1.
- MetadataGenerator.GenerateManifest: builds on the corrected helper of Findings row 1.
- MetadataGenerator.MintAndMapManifests: builds on the corrected helper of Findings row 1.
- MetadataGenerator.GeneratedIdsNotNull: builds on the corrected helper of Findings row 1.
- AnalysisIds.RerunAnalysis: builds on the corrected helper of Findings row 2.
- AnalysisIds.NomRerunAnalysis: builds on the corrected helper of Findings row 2.
- NomMetadata.CalibrationIdList: the corrected half of Findings row 3.
- NomMetadata.RowCalibrations: builds on the corrected helper of Findings row 3.
- NomMetadata.RowCalibrationIds: builds on the corrected helper of Findings row 3.
- NomMetadata.CalibrationUrl: the corrected half of Findings row 4.
- NomMetadata.GenerateCalibrationIds: builds on the corrected helper of Findings row 4.
- LcmsMetadata.ProcessedDirectoryObjects: the corrected half of Findings row 5.
- SchemaBridge.TypecodeForCurie: the corrected half of Findings row 6.
- MaterialProcessing.ProduceOne: builds the processed sample as `generate_processed_sample` is evidently meant to be called, the corrected step of Findings row 8.
- MaterialProcessing.OutputsFrom: builds on the corrected step of Findings row 8.
- MaterialProcessing.RunStep: looks the material-processing generator up by process type directly, the corrected step of Findings row 8; the generators themselves are given as a parameter.
- MaterialProcessing.ProduceOutput: builds on the corrected step of Findings row 8.
- MaterialProcessing.ProduceOutputs: builds on the corrected step of Findings row 8.
- MaterialProcessing.GenerateStep: builds on the corrected step of Findings row 8.
- MaterialProcessing.RunSteps: builds on the corrected step of Findings row 8.
- MaterialProcessing.JsonGeneration: builds on the corrected step of Findings row 8.
- MaterialProcessing.GenerateInputsDefinedEarlier: builds on the corrected step of Findings row 8.
- MaterialProcessing.GenerateValueErrorIsUndefinedInput: builds on the corrected step of Findings row 8.
- MaterialProcessing.GenerateCounts: builds on the corrected step of Findings row 8.
- MaterialProcessing.StepErrorAsWritten: the kind of error is stated; which of NameError and TypeError comes first follows Python's argument evaluation, and the messages are not modelled.
- MaterialProcessing.MapFinalSamples: raw identifiers are CSV cells, so lists and dicts are excluded by `MappingRows`; a NaN, int or bool identifier is modelled and raises TypeError.
- MaterialProcessing.KeepPresent: a float attribute other than NaN is not modelled (floats are not); every other attribute value is.
- Common.IsSpace: covers the characters `str.isspace()` accepts below U+00A1; the Unicode spaces above it (U+1680, U+2000-U+200A, U+2028, U+2029, U+202F, U+205F, U+3000) are not treated as blanks by `Strip` and `Split`.
- IdPool.TakeIds: the minting service is a function of the type, the count and the attempt, so every refill of one type receives the same batch. The service's promise never to repeat an ID is not modelled; the distinctness hypotheses of NomMetadata.ParameterNotListed, LcmsMetadata.ParameterNotListed and BiosampleGenerator.MintedIdTaken therefore hold only while the IDs come from one batch.

## Findings

| source | as written | input that shows it | evidently intended | confidence | as-written member | corrected member |
|---|---|---|---|---|---|---|
| nmdc_ms_metadata_gen/metadata_generator.py:1629-1631 | a manifest name is skipped when its `manifest_id` `is not None` | a CSV with a `manifest_id` column whose cell is empty reads as NaN, which is not None, so no manifest is minted and the row keeps NaN | mint for every name whose ID is missing (None or NaN) | not executed | MetadataGenerator.MissingIdsAsWritten, MetadataGenerator.NaNManifestIdSkipped | MetadataGenerator.MissingIds |
| nmdc_ms_metadata_gen/gcms_metab_metadata_generator.py:213-220 | the previous analysis is the one with the greatest ID as a string | previous IDs ending ".9" and ".10": the string maximum is ".9", so the rerun gets ".10" again | the previous analysis with the greatest version number | not executed | AnalysisIds.GreatestIdIndex, AnalysisIds.NinthRerunRepeatsId | AnalysisIds.LatestVersionIndex, AnalysisIds.LatestIncrementIsFresh |
| nmdc_ms_metadata_gen/nom_metadata_generator.py:321-325 | both calibration attributes are read although they are assigned only inside branches | a row with `calibration_id` and no SRFA column raises AttributeError | an unassigned calibration counts as None and is left out of the list | not executed | NomMetadata.CalibrationIdListAsWritten, NomMetadata.RowWithoutSrfaColumnsRaises | NomMetadata.CalibrationIdList |
| nmdc_ms_metadata_gen/nom_metadata_generator.py:512-516 | when the row has `calibration_file_url`, the URL is read from `calibration_file` | a NOM row with `srfa_calib_path` and `calibration_file_url` only raises KeyError | the URL is the `calibration_file_url` cell | not executed | NomMetadata.CalibrationUrlAsWritten, NomMetadata.CalibrationUrlFromWrongColumn | NomMetadata.CalibrationUrl |
| nmdc_ms_metadata_gen/lcms_metadata_generator.py:251-258 | the three object locals are first assigned inside the file loop | a first row whose directory has no `.toml` file raises UnboundLocalError | the check raises ValueError naming the directory | not executed | LcmsMetadata.RowStartAsWritten, LcmsMetadata.FirstRowMissingParametersRaisesNameError | LcmsMetadata.ProcessedDirectoryObjects, LcmsMetadata.AllKindsOrValueError |
| nmdc_ms_metadata_gen/schema_bridge.py:139-146 | `get_typecode_for_curie` returns the metadata record found under the CURIE | "nmdc:Biosample" gives the Biosample record instead of "bsm" | the class's primary typecode | not executed | SchemaBridge.TypecodeForCurieAsWritten, SchemaBridge.BiosampleCurieGivesRecord | SchemaBridge.TypecodeForCurie |
| nmdc_ms_metadata_gen/study_metadata.py:87-89 | `str.startswith("nmdc:bsm", "nmdc:procsm")` passes the second prefix as the NaN fill value | a data generation whose only input is "nmdc:procsm-11-xyz" gives no row | inputs starting with either prefix are kept | not executed | StudyMetadata.DataGenerationMetadataAsWritten, StudyMetadata.ProcessedSampleInputDropped | StudyMetadata.DataGenerationMetadata |
| nmdc_ms_metadata_gen/material_processing_generator.py:263-294 | `generate_processed_sample(placeholder_outline)` passes the outline as one positional argument, and the method name `ProcessGeneratorMap` gives for the process type (such as `generate_subsampling_process`) is not a method of the generator class | a step "SubSamplingProcess" with output "p1" raises TypeError at line 263; a step without outputs raises AttributeError at line 292 | each output gets its processed sample and each step its material-processing record through the generator for its process type | not executed | MaterialProcessing.StepErrorAsWritten, MaterialProcessing.GenerateAsWritten, MaterialProcessing.OutputStepRaisesTypeError | MaterialProcessing.RunStep, MaterialProcessing.GenerateInputsDefinedEarlier, MaterialProcessing.GenerateCounts |
| nmdc_ms_metadata_gen/metadata_input_check.py:90-92 | the same `str.startswith("nmdc:bsm", "nmdc:procsm")` as `study_metadata.py`, with the second prefix taken as the NaN fill value | a data generation whose only input is "nmdc:procsm-11-xyz" gives no row; one with an empty `has_input` raises KeyError, re-raised as ValueError | inputs starting with either prefix are kept and other inputs dropped | not executed | MetadataInputCheck.DataGenerationMetadataAsWritten, MetadataInputCheck.ProcessedSampleInputDropped, MetadataInputCheck.NoInputRaisesAsWritten | MetadataInputCheck.DataGenerationMetadata, MetadataInputCheck.ExistingMetadata |
