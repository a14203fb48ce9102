/**
 * `StudyMetadata`: the `MetadataSurveyor` of `study_metadata.py`, which
 * checks the columns of the CSVs a study supplies and links the study's
 * biosamples to its mass-spectrometry data-generation records. The API
 * searches and the CSV reader are replaced by their results, given as
 * parameters.
 */
module StudyMetadata {
  import opened Common
  import opened Frames

  // ---------------------------------------------------------------------
  // Column checks of the supplied CSVs
  // ---------------------------------------------------------------------

  const AdditionalInfoColumns: seq<string> := ["biosample_id", "raw_data_identifier", "stepname", "slotname", "value"]

  const MappingInfoColumns: seq<string> := ["biosample_id", "raw_data_identifier", "processedsample_placeholder"]

  /** A CSV checked for its required columns: the frame unchanged, or ValueError naming the missing ones. */
  function RequireColumns(t: Table, required: seq<string>): (r: Result<Table>)
    ensures r.Ok? <==> forall c :: c in required ==> c in t.columns
    ensures r.Ok? ==> r.value == t
    ensures r.Err? ==> r.error.kind == ValueError && Subsequence(r.error.names, required)
    ensures r.Err? ==> forall c :: c in r.error.names <==> c in required && c !in t.columns
  {
    var missing := MissingFrom(required, t.columns);
    if missing == [] then Ok(t)
    else
      assert missing[0] in missing;
      Err(Error(ValueError, missing))
  }

  /**
   * `additional_info`: the sample-specific CSV, or ValueError naming, in the
   * order biosample_id, raw_data_identifier, stepname, slotname, value,
   * those it lacks.
   */
  function AdditionalInfo(t: Table): (r: Result<Table>)
    ensures r.Ok? <==> forall c :: c in AdditionalInfoColumns ==> c in t.columns
    ensures r.Ok? ==> r.value == t
    ensures r.Err? ==> r.error.kind == ValueError && Subsequence(r.error.names, AdditionalInfoColumns)
    ensures r.Err? ==> forall c :: c in r.error.names <==> c in AdditionalInfoColumns && c !in t.columns
  {
    RequireColumns(t, AdditionalInfoColumns)
  }

  /** A CSV with only `value` and `biosample_id` is told the other three, in their fixed order. */
  lemma AdditionalInfoNamesInOrder(rows: seq<Row>)
    ensures AdditionalInfo(Table(["value", "biosample_id"], rows))
      == Err(Error(ValueError, ["raw_data_identifier", "stepname", "slotname"]))
  {
    var columns := ["value", "biosample_id"];
    assert ["value"][1..] == [];
    assert MissingFrom(["value"], columns) == [];
    assert ["slotname", "value"][1..] == ["value"];
    assert MissingFrom(["slotname", "value"], columns) == ["slotname"];
    assert ["stepname", "slotname", "value"][1..] == ["slotname", "value"];
    assert MissingFrom(["stepname", "slotname", "value"], columns) == ["stepname", "slotname"];
    assert AdditionalInfoColumns[1..][1..] == ["stepname", "slotname", "value"];
    assert MissingFrom(AdditionalInfoColumns[1..], columns) == ["raw_data_identifier", "stepname", "slotname"];
  }

  /**
   * `mapping_info`: the biosample-to-data-generation CSV, or ValueError
   * naming which of biosample_id, raw_data_identifier and
   * processedsample_placeholder it lacks.
   */
  function MappingInfo(t: Table): (r: Result<Table>)
    ensures r.Ok? <==> forall c :: c in MappingInfoColumns ==> c in t.columns
    ensures r.Ok? ==> r.value == t
    ensures r.Err? ==> r.error.kind == ValueError && Subsequence(r.error.names, MappingInfoColumns)
    ensures r.Err? ==> forall c :: c in r.error.names <==> c in MappingInfoColumns && c !in t.columns
  {
    RequireColumns(t, MappingInfoColumns)
  }

  // ---------------------------------------------------------------------
  // data_generation_metadata
  // ---------------------------------------------------------------------

  /** The data-generation fields kept, before the caller's extra ones. */
  const KeptFields: seq<string> := ["id", "name", "has_input", "has_output", "analyte_category"]

  /** The columns of the resulting frame, in order. */
  function OutputColumns(extra: seq<string>): seq<string>
  {
    ["raw_data_identifier", "raw_file_name", "raw_data_input", "has_output"] + extra + ["analyte"]
  }

  /** The cell of a record in a frame built from records: NaN where the record lacks the field. */
  function Field(record: Row, f: string): Value
  {
    if f in record then record[f] else NaN
  }

  /** The fields no record has, which selecting them fails on. */
  function AbsentFields(fields: seq<string>, records: seq<Row>): (absent: seq<string>)
    ensures forall f :: f in absent <==> f in fields && forall i :: 0 <= i < |records| ==> f !in records[i]
    ensures (forall f :: f in fields ==> exists i :: 0 <= i < |records| && f in records[i]) ==> absent == []
  {
    if fields == [] then []
    else
      var rest := AbsentFields(fields[1..], records);
      assert forall f :: f in fields[1..] ==> f in fields;
      assert fields[0] in fields;
      if forall i :: 0 <= i < |records| ==> fields[0] !in records[i] then [fields[0]] + rest else rest
  }

  /** `explode` of one cell: the items of a list (NaN for an empty one), or the value itself. */
  function Exploded(v: Value): (vs: seq<Value>)
    ensures vs != []
  {
    match v
    case List(items) => if items == [] then [NaN] else items
    case _ => [v]
  }

  /** `Exploded` keeps every item of a non-empty list and every non-list value. */
  lemma ExplodedKeepsItems(v: Value, x: Value)
    requires (v.List? && x in v.items) || (!v.List? && x == v)
    ensures x in Exploded(v)
  {
  }

  /** The analyte names of the omics categories: metabolome, lipidome and metaproteome become metabolite, lipid and protein. */
  function AnalyteOf(category: Value): (analyte: Value)
    ensures analyte !in {Str("metabolome"), Str("lipidome"), Str("metaproteome")}
    ensures analyte != category <==> category in {Str("metabolome"), Str("lipidome"), Str("metaproteome")}
  {
    match category
    case Str("metabolome") => Str("metabolite")
    case Str("lipidome") => Str("lipid")
    case Str("metaproteome") => Str("protein")
    case _ => category
  }

  /** Renaming the analyte twice renames it once. */
  lemma AnalyteOfIdempotent(category: Value)
    ensures AnalyteOf(AnalyteOf(category)) == AnalyteOf(category)
  {
  }

  /**
   * The input filter. `BiosampleInputsOnly` is the filter as written: the
   * string `nmdc:procsm` is passed where pandas takes the fill value for
   * non-string cells, so processed-sample inputs are dropped and a
   * non-string input breaks the mask. `SampleInputs` keeps the biosample
   * and processed-sample inputs the code means to keep.
   */
  datatype InputFilter = BiosampleInputsOnly | SampleInputs

  const BiosamplePrefix: string := "nmdc:bsm"

  const ProcessedSamplePrefix: string := "nmdc:procsm"

  predicate Kept(filter: InputFilter, input: Value)
  {
    input.Str? && (StartsWith(input.s, BiosamplePrefix)
                   || (filter == SampleInputs && StartsWith(input.s, ProcessedSamplePrefix)))
  }

  /** The row a record yields for one of its inputs and one of its outputs; the kept fields win over extra fields of the same name. */
  function GenerationRow(record: Row, extra: seq<string>, input: Value, output: Value): Row
  {
    (map f | f in extra :: Field(record, f))["raw_data_identifier" := Field(record, "id")]
      ["raw_file_name" := Field(record, "name")]["raw_data_input" := input]["has_output" := output]
      ["analyte" := AnalyteOf(Field(record, "analyte_category"))]
  }

  function Inputs(record: Row): seq<Value> { Exploded(Field(record, "has_input")) }

  function Outputs(record: Row): seq<Value> { Exploded(Field(record, "has_output")) }

  /** The rows of one input: one per output. */
  function OutputRows(record: Row, extra: seq<string>, input: Value, outputs: seq<Value>): (rows: seq<Row>)
    ensures |rows| == |outputs|
    ensures forall b :: 0 <= b < |outputs| ==> rows[b] == GenerationRow(record, extra, input, outputs[b])
  {
    seq(|outputs|, b requires 0 <= b < |outputs| => GenerationRow(record, extra, input, outputs[b]))
  }

  /** The rows of the kept inputs among `inputs`, in order. */
  function InputRows(record: Row, extra: seq<string>, filter: InputFilter, inputs: seq<Value>, outputs: seq<Value>)
    : seq<Row>
  {
    if inputs == [] then []
    else
      (if Kept(filter, inputs[0]) then OutputRows(record, extra, inputs[0], outputs) else [])
        + InputRows(record, extra, filter, inputs[1..], outputs)
  }

  /** The rows of all records, in record order. */
  function GenerationRows(records: seq<Row>, extra: seq<string>, filter: InputFilter): seq<Row>
  {
    if records == [] then []
    else InputRows(records[0], extra, filter, Inputs(records[0]), Outputs(records[0]))
           + GenerationRows(records[1..], extra, filter)
  }

  /** Every exploded input of every record is a string. */
  predicate InputsAreStrings(records: seq<Row>)
  {
    forall i, a :: 0 <= i < |records| && 0 <= a < |Inputs(records[i])| ==> Inputs(records[i])[a].Str?
  }

  /**
   * The data-generation frame: KeyError naming the kept or extra fields no
   * record has; otherwise one row per kept input and output of each record,
   * with the renamed columns and the analyte.
   */
  function DataGenerationFrame(records: seq<Row>, extra: seq<string>, filter: InputFilter): (r: Result<Table>)
    ensures r.Err? ==> r.error.kind == KeyError
    ensures AbsentFields(KeptFields + extra, records) != [] ==>
      r == Err(Error(KeyError, AbsentFields(KeptFields + extra, records)))
    ensures r.Ok? ==> r.value.columns == OutputColumns(extra)
    ensures r.Ok? <==> AbsentFields(KeptFields + extra, records) == [] && (filter == SampleInputs || InputsAreStrings(records))
    ensures r.Ok? ==> forall k :: 0 <= k < |r.value.rows| ==> Kept(filter, Get(r.value.rows[k], "raw_data_input"))
  {
    var absent := AbsentFields(KeptFields + extra, records);
    if absent != [] then Err(Error(KeyError, absent))
    else if filter == BiosampleInputsOnly && !InputsAreStrings(records) then Err(Error(KeyError, []))
    else
      GenerationRowsKept(records, extra, filter);
      assert filter == SampleInputs || InputsAreStrings(records);
      Ok(Table(OutputColumns(extra), GenerationRows(records, extra, filter)))
  }

  lemma GenerationRowsKept(records: seq<Row>, extra: seq<string>, filter: InputFilter)
    ensures forall k :: 0 <= k < |GenerationRows(records, extra, filter)| ==>
      Kept(filter, Get(GenerationRows(records, extra, filter)[k], "raw_data_input"))
  {
    var rows := GenerationRows(records, extra, filter);
    forall k | 0 <= k < |rows| ensures Kept(filter, Get(rows[k], "raw_data_input")) {
      assert rows[k] in rows;
      GenerationRowsMembers(records, extra, filter, rows[k]);
    }
  }

  /** `data_generation_metadata` as written: only inputs starting with `nmdc:bsm` survive. */
  function DataGenerationMetadataAsWritten(records: seq<Row>, extra: seq<string>): (r: Result<Table>)
    ensures r.Ok? ==> forall k :: 0 <= k < |r.value.rows| ==>
      Get(r.value.rows[k], "raw_data_input").Str? && StartsWith(Get(r.value.rows[k], "raw_data_input").s, BiosamplePrefix)
  {
    DataGenerationFrame(records, extra, BiosampleInputsOnly)
  }

  /**
   * `data_generation_metadata` as its comment describes it: biosample and
   * processed-sample inputs survive, other inputs are dropped.
   */
  function DataGenerationMetadata(records: seq<Row>, extra: seq<string>): (r: Result<Table>)
    ensures r.Ok? <==> AbsentFields(KeptFields + extra, records) == []
    ensures r.Ok? ==> forall k :: 0 <= k < |r.value.rows| ==> Kept(SampleInputs, Get(r.value.rows[k], "raw_data_input"))
  {
    DataGenerationFrame(records, extra, SampleInputs)
  }

  /** The record yields this row for one of its kept inputs and one of its outputs. */
  predicate ProducedBy(record: Row, extra: seq<string>, filter: InputFilter, row: Row)
  {
    exists a, b :: 0 <= a < |Inputs(record)| && 0 <= b < |Outputs(record)| && Kept(filter, Inputs(record)[a])
      && row == GenerationRow(record, extra, Inputs(record)[a], Outputs(record)[b])
  }

  lemma {:induction false} InputRowsMembers(record: Row, extra: seq<string>, filter: InputFilter,
                                            inputs: seq<Value>, outputs: seq<Value>, row: Row)
    ensures row in InputRows(record, extra, filter, inputs, outputs) <==>
      exists a, b :: 0 <= a < |inputs| && 0 <= b < |outputs| && Kept(filter, inputs[a])
        && row == GenerationRow(record, extra, inputs[a], outputs[b])
  {
    if inputs != [] {
      InputRowsMembers(record, extra, filter, inputs[1..], outputs, row);
      assert forall a :: 0 < a < |inputs| ==> inputs[a] == inputs[1..][a - 1];
      if row in InputRows(record, extra, filter, inputs[1..], outputs) {
        var a, b :| 0 <= a < |inputs[1..]| && 0 <= b < |outputs| && Kept(filter, inputs[1..][a])
          && row == GenerationRow(record, extra, inputs[1..][a], outputs[b]);
        assert inputs[a + 1] == inputs[1..][a];
      }
    }
  }

  /**
   * A row is in the frame exactly when some record yields it for one of
   * its kept inputs and one of its outputs.
   */
  lemma {:induction false} GenerationRowsMembers(records: seq<Row>, extra: seq<string>, filter: InputFilter, row: Row)
    ensures row in GenerationRows(records, extra, filter) <==>
      exists i :: 0 <= i < |records| && ProducedBy(records[i], extra, filter, row)
  {
    if records != [] {
      InputRowsMembers(records[0], extra, filter, Inputs(records[0]), Outputs(records[0]), row);
      GenerationRowsMembers(records[1..], extra, filter, row);
      assert forall i :: 0 < i < |records| ==> records[i] == records[1..][i - 1];
      if exists i :: 0 <= i < |records[1..]| && ProducedBy(records[1..][i], extra, filter, row) {
        var i :| 0 <= i < |records[1..]| && ProducedBy(records[1..][i], extra, filter, row);
        assert records[i + 1] == records[1..][i];
      }
    }
  }

  /**
   * What a produced row holds: the record's ID as `raw_data_identifier`, its
   * name as `raw_file_name`, one of its kept inputs as `raw_data_input`, one
   * of its outputs, the renamed analyte, and the extra fields.
   */
  lemma ProducedRowFields(record: Row, extra: seq<string>, filter: InputFilter, row: Row)
    requires ProducedBy(record, extra, filter, row)
    ensures row.Keys == ColumnSet(OutputColumns(extra))
    ensures row["raw_data_identifier"] == Field(record, "id") && row["raw_file_name"] == Field(record, "name")
    ensures row["raw_data_input"] in Inputs(record) && Kept(filter, row["raw_data_input"])
    ensures row["has_output"] in Outputs(record)
    ensures row["analyte"] == AnalyteOf(Field(record, "analyte_category"))
    ensures forall f :: f in extra && f !in OutputColumns([]) ==> row[f] == Field(record, f)
  {
  }

  /** Every kept input of a record, paired with every output, has its row. */
  lemma EveryKeptPairHasRow(records: seq<Row>, extra: seq<string>, filter: InputFilter, i: nat, a: nat, b: nat)
    requires i < |records| && a < |Inputs(records[i])| && b < |Outputs(records[i])|
    requires Kept(filter, Inputs(records[i])[a])
    ensures GenerationRow(records[i], extra, Inputs(records[i])[a], Outputs(records[i])[b])
            in GenerationRows(records, extra, filter)
  {
    GenerationRowsMembers(records, extra, filter,
                          GenerationRow(records[i], extra, Inputs(records[i])[a], Outputs(records[i])[b]));
  }

  /**
   * A data-generation record whose only input is a processed sample: the
   * filter as written yields no row for it, the intended one yields its row.
   */
  lemma ProcessedSampleInputDropped()
    ensures var record := ProcessedSampleRecord();
      DataGenerationMetadataAsWritten([record], []) == Ok(Table(OutputColumns([]), []))
      && DataGenerationMetadata([record], []).Ok?
      && |DataGenerationMetadata([record], []).value.rows| == 1
      && Get(DataGenerationMetadata([record], []).value.rows[0], "raw_data_input") == Str("nmdc:procsm-11-xyz")
  {
    ProcessedSampleFrames();
    ProcessedSampleRows();
  }

  /** The record has every kept field and string inputs, so both filters build a frame of its rows. */
  lemma ProcessedSampleFrames()
    ensures var records := [ProcessedSampleRecord()];
      DataGenerationFrame(records, [], BiosampleInputsOnly)
        == Ok(Table(OutputColumns([]), GenerationRows(records, [], BiosampleInputsOnly)))
      && DataGenerationFrame(records, [], SampleInputs)
        == Ok(Table(OutputColumns([]), GenerationRows(records, [], SampleInputs)))
  {
    var record := ProcessedSampleRecord();
    assert [record][1..] == [];
    assert InputsAreStrings([record]) by {
      assert Inputs([record][0]) == [Str("nmdc:procsm-11-xyz")];
    }
    assert AbsentFields(KeptFields + [], [record]) == [] by {
      assert KeptFields + [] == KeptFields;
      assert forall f :: f in KeptFields ==> f in [record][0];
    }
  }

  /** A data-generation record whose only input is a processed sample. */
  function ProcessedSampleRecord(): Row
  {
    map["id" := Str("nmdc:dgms-11-abc"), "name" := Str("run1.raw"),
        "has_input" := List([Str("nmdc:procsm-11-xyz")]),
        "has_output" := List([Str("nmdc:dobj-11-def")]),
        "analyte_category" := Str("metabolome")]
  }

  lemma ProcessedSampleRows()
    ensures GenerationRows([ProcessedSampleRecord()], [], BiosampleInputsOnly) == []
    ensures var rows := GenerationRows([ProcessedSampleRecord()], [], SampleInputs);
      |rows| == 1 && Get(rows[0], "raw_data_input") == Str("nmdc:procsm-11-xyz")
  {
    var record := ProcessedSampleRecord();
    var input := Str("nmdc:procsm-11-xyz");
    var output := Str("nmdc:dobj-11-def");
    assert Inputs(record) == [input];
    assert Outputs(record) == [output];
    assert !Kept(BiosampleInputsOnly, input) by {
      assert input.s[..|BiosamplePrefix|][7] != BiosamplePrefix[7];
    }
    assert Kept(SampleInputs, input) by {
      assert StartsWith(input.s, ProcessedSamplePrefix);
    }
    assert [input][1..] == [] && [record][1..] == [];
    assert InputRows(record, [], BiosampleInputsOnly, [input], [output]) == [];
    assert InputRows(record, [], SampleInputs, [input], [output]) == [GenerationRow(record, [], input, output)];
  }

  // ---------------------------------------------------------------------
  // study_dataobject_metadata and existing_metadata
  // ---------------------------------------------------------------------

  /** One record of the study's data-object search: a biosample and its data objects. */
  datatype StudyObjects = StudyObjects(biosampleId: Value, dataObjects: seq<Row>)

  /** The `id`/`biosample_id` rows of one record's data objects. */
  function ObjectRowsOf(record: StudyObjects): (rows: seq<Row>)
    ensures |rows| == |record.dataObjects|
    ensures forall k :: 0 <= k < |rows| ==>
      rows[k] == map["id" := Field(record.dataObjects[k], "id"), "biosample_id" := record.biosampleId]
  {
    seq(|record.dataObjects|, k requires 0 <= k < |record.dataObjects| =>
          map["id" := Field(record.dataObjects[k], "id"), "biosample_id" := record.biosampleId])
  }

  function ObjectRows(records: seq<StudyObjects>): seq<Row>
  {
    if records == [] then [] else ObjectRowsOf(records[0]) + ObjectRows(records[1..])
  }

  /** Some data object of some record has an `id`. */
  predicate SomeObjectHasId(records: seq<StudyObjects>)
  {
    exists i, k :: 0 <= i < |records| && 0 <= k < |records[i].dataObjects| && "id" in records[i].dataObjects[k]
  }

  /**
   * `study_dataobject_metadata`: each data object of each record as an
   * `id`/`biosample_id` row. No records leave nothing to concatenate
   * (ValueError); no data object with an `id` leaves no `id` column (KeyError).
   */
  function StudyDataObjectMetadata(records: seq<StudyObjects>): (r: Result<Table>)
    ensures records == [] ==> r == Err(Error(ValueError, []))
    ensures records != [] && !SomeObjectHasId(records) ==> r == Err(Error(KeyError, ["id"]))
    ensures r.Ok? <==> records != [] && SomeObjectHasId(records)
    ensures r.Ok? ==> r.value.columns == ["id", "biosample_id"]
    ensures r.Ok? ==> forall k :: 0 <= k < |r.value.rows| ==> r.value.rows[k].Keys == {"id", "biosample_id"}
  {
    if records == [] then Err(Error(ValueError, []))
    else if !SomeObjectHasId(records) then Err(Error(KeyError, ["id"]))
    else
      var rows := ObjectRows(records);
      ObjectRowsKeys(records);
      Ok(Table(["id", "biosample_id"], rows))
  }

  lemma {:induction false} ObjectRowsKeys(records: seq<StudyObjects>)
    ensures forall k :: 0 <= k < |ObjectRows(records)| ==> ObjectRows(records)[k].Keys == {"id", "biosample_id"}
  {
    if records != [] {
      ObjectRowsKeys(records[1..]);
    }
  }

  /** The columns `existing_metadata` keeps, before the caller's extra ones. */
  const ExistingColumns: seq<string> := ["biosample_id", "raw_data_identifier", "raw_file_name", "analyte", "raw_data_input"]

  /** The kept columns of a data-generation row merged with a data-object row. */
  function ExistingRow(generation: Row, dataObject: Row, extra: seq<string>): Row
  {
    map f | f in ExistingColumns + extra :: if f == "biosample_id" then Get(dataObject, f) else Get(generation, f)
  }

  /** The rows of one data-generation row merged with the data objects it output. */
  function MatchingObjects(generation: Row, objects: seq<Row>, extra: seq<string>): seq<Row>
  {
    if objects == [] then []
    else (if Get(objects[0], "id") == Get(generation, "has_output") then [ExistingRow(generation, objects[0], extra)] else [])
           + MatchingObjects(generation, objects[1..], extra)
  }

  /** The inner merge on `has_output` = `id`, in the order of the data-generation rows. */
  function Merged(generation: seq<Row>, objects: seq<Row>, extra: seq<string>): seq<Row>
  {
    if generation == [] then []
    else MatchingObjects(generation[0], objects, extra) + Merged(generation[1..], objects, extra)
  }

  /** The one error `existing_metadata` raises, whatever failed inside it. */
  const NoExistingMetadata: Error := Error(ValueError, [])

  /**
   * `existing_metadata`: the data-generation rows merged with the study's
   * data objects on their output, keeping the biosample, the raw-data
   * columns and the extra ones. The two searches are given as their
   * results; any failure is re-raised as one ValueError.
   */
  function ExistingMetadata(generationRecords: Result<seq<Row>>, objectRecords: Result<seq<StudyObjects>>,
                            extra: seq<string>): (r: Result<Table>)
    ensures r.Err? ==> r.error == NoExistingMetadata
    ensures r.Ok? <==> generationRecords.Ok? && DataGenerationMetadata(generationRecords.value, extra).Ok?
                       && objectRecords.Ok? && StudyDataObjectMetadata(objectRecords.value).Ok?
    ensures r.Ok? ==> r.value.columns == ExistingColumns + extra
  {
    if generationRecords.Err? then Err(NoExistingMetadata)
    else match DataGenerationMetadata(generationRecords.value, extra)
      case Err(_) => Err(NoExistingMetadata)
      case Ok(generation) =>
        if objectRecords.Err? then Err(NoExistingMetadata)
        else match StudyDataObjectMetadata(objectRecords.value)
          case Err(_) => Err(NoExistingMetadata)
          case Ok(objects) => Ok(Table(ExistingColumns + extra, Merged(generation.rows, objects.rows, extra)))
  }

  lemma {:induction false} MatchingObjectsMembers(generation: Row, objects: seq<Row>, extra: seq<string>, row: Row)
    ensures row in MatchingObjects(generation, objects, extra) <==>
      exists b :: 0 <= b < |objects| && Get(objects[b], "id") == Get(generation, "has_output")
        && row == ExistingRow(generation, objects[b], extra)
  {
    if objects != [] {
      MatchingObjectsMembers(generation, objects[1..], extra, row);
      assert forall b :: 0 < b < |objects| ==> objects[b] == objects[1..][b - 1];
      if row in MatchingObjects(generation, objects[1..], extra) {
        var b :| 0 <= b < |objects[1..]| && Get(objects[1..][b], "id") == Get(generation, "has_output")
          && row == ExistingRow(generation, objects[1..][b], extra);
        assert objects[b + 1] == objects[1..][b];
      }
    }
  }

  /**
   * The merge is the inner join: a row is in it exactly when it joins a
   * data-generation row with a data object whose `id` is that row's output.
   */
  lemma {:induction false} MergedMembers(generation: seq<Row>, objects: seq<Row>, extra: seq<string>, row: Row)
    ensures row in Merged(generation, objects, extra) <==>
      exists a, b :: 0 <= a < |generation| && 0 <= b < |objects|
        && Get(objects[b], "id") == Get(generation[a], "has_output")
        && row == ExistingRow(generation[a], objects[b], extra)
  {
    if generation != [] {
      MatchingObjectsMembers(generation[0], objects, extra, row);
      MergedMembers(generation[1..], objects, extra, row);
      assert forall a :: 0 < a < |generation| ==> generation[a] == generation[1..][a - 1];
      if row in Merged(generation[1..], objects, extra) {
        var a, b :| 0 <= a < |generation[1..]| && 0 <= b < |objects|
          && Get(objects[b], "id") == Get(generation[1..][a], "has_output")
          && row == ExistingRow(generation[1..][a], objects[b], extra);
        assert generation[a + 1] == generation[1..][a];
      }
    }
  }

  /** A merged row carries the data object's biosample and the data-generation record's other columns. */
  lemma ExistingRowFields(generation: Row, dataObject: Row, extra: seq<string>)
    ensures var row := ExistingRow(generation, dataObject, extra);
      row.Keys == ColumnSet(ExistingColumns + extra)
      && row["biosample_id"] == Get(dataObject, "biosample_id")
      && forall f :: f in ExistingColumns + extra && f != "biosample_id" ==> row[f] == Get(generation, f)
  {
  }

  // ---------------------------------------------------------------------
  // metadata_test
  // ---------------------------------------------------------------------

  /** The outcome of checking a mapping sheet against what the study already has. */
  datatype TestOutcome =
    | Passed
    | Raised(error: Error)

  /** `df.empty`: no rows or no columns. */
  predicate Empty(t: Table)
  {
    t.rows == [] || t.columns == []
  }

  /**
   * `metadata_test` of `study_metadata.py`: the loop unpacks each
   * `(index, row)` pair as `(row, _)` and then subscripts the index, so a
   * non-empty mapping checked against non-empty existing metadata raises
   * TypeError on its first row.
   */
  function StudyMetadataTest(mapping: Table, existing: Result<Table>): (r: TestOutcome)
    ensures existing.Err? ==> r == Raised(existing.error)
    ensures existing.Ok? ==> (r == Passed <==> Empty(mapping) || Empty(existing.value))
    ensures existing.Ok? && r != Passed ==> r == Raised(Error(TypeError, []))
  {
    match existing
    case Err(e) => Raised(e)
    case Ok(t) => if !Empty(mapping) && !Empty(t) then Raised(Error(TypeError, [])) else Passed
  }
}
