/**
 * `MetadataInputCheck`: the `MetadataSurveyor` of `metadata_input_check.py`,
 * the later version of the study surveyor. It checks the mapping CSV with a
 * set difference, tolerates a study without data-generation records, and
 * tests a mapping sheet against what the study already has.
 */
module MetadataInputCheck {
  import opened Common
  import opened Frames
  import Study = StudyMetadata

  /**
   * `mapping_info`: the mapping CSV, or ValueError whose names are the
   * required columns minus the CSV's columns.
   */
  function MappingInfo(t: Table): (r: Result<Table>)
    ensures r.Ok? <==> (set c | c in Study.MappingInfoColumns) - ColumnSet(t.columns) == {}
    ensures r.Ok? ==> r.value == t
    ensures r.Err? ==> (r.error.kind == ValueError
      && (set c | c in r.error.names) == (set c | c in Study.MappingInfoColumns) - ColumnSet(t.columns))
  {
    var r := Study.RequireColumns(t, Study.MappingInfoColumns);
    assert r.Ok? <==> (set c | c in Study.MappingInfoColumns) - ColumnSet(t.columns) == {} by {
      if !r.Ok? {
        var c :| c in Study.MappingInfoColumns && c !in t.columns;
        assert c in (set c | c in Study.MappingInfoColumns) - ColumnSet(t.columns);
      }
    }
    r
  }

  /** `pd.DataFrame(records).empty`: no record has any field. */
  predicate NoFields(records: seq<Row>)
  {
    forall i :: 0 <= i < |records| ==> records[i] == map[]
  }

  /**
   * `data_generation_metadata`: None when the study has no data-generation
   * fields at all, otherwise the data-generation frame under `filter`.
   * Lines 90-92 repeat the `str.startswith("nmdc:bsm", "nmdc:procsm")` of
   * `study_metadata.py`, whose second argument is pandas' `na`, not a second
   * prefix: the code as written is `BiosampleInputsOnly` and the evidently
   * intended filter is `SampleInputs`.
   */
  function DataGenerationMetadata(records: seq<Row>, extra: seq<string>, filter: Study.InputFilter)
    : (r: Result<Option<Table>>)
    ensures r == Ok(None) <==> NoFields(records)
    ensures records == [] ==> r == Ok(None)
    ensures !NoFields(records) ==>
      (r.Ok? <==> Study.AbsentFields(Study.KeptFields + extra, records) == []
                  && (filter == Study.SampleInputs || Study.InputsAreStrings(records)))
    ensures !NoFields(records) && r.Ok? ==> r.value == Some(Study.DataGenerationFrame(records, extra, filter).value)
    ensures !NoFields(records) && r.Err? ==> r.error.kind == KeyError
    ensures r.Ok? && r.value.Some? ==>
      forall k :: 0 <= k < |r.value.value.rows| ==> Study.Kept(filter, Get(r.value.value.rows[k], "raw_data_input"))
  {
    if NoFields(records) then Ok(None)
    else match Study.DataGenerationFrame(records, extra, filter)
      case Ok(t) => Ok(Some(t))
      case Err(e) => Err(e)
  }

  /**
   * `data_generation_metadata` as written: the surviving inputs are the
   * biosamples, as in the study surveyor's frame as written.
   */
  function DataGenerationMetadataAsWritten(records: seq<Row>, extra: seq<string>): (r: Result<Option<Table>>)
    ensures r == Ok(None) <==> NoFields(records)
    ensures !NoFields(records) ==> (r.Ok? <==> Study.DataGenerationMetadataAsWritten(records, extra).Ok?)
    ensures !NoFields(records) && r.Ok? ==> r.value == Some(Study.DataGenerationMetadataAsWritten(records, extra).value)
    ensures r.Ok? && r.value.Some? ==> forall k :: 0 <= k < |r.value.value.rows| ==>
      Get(r.value.value.rows[k], "raw_data_input").Str?
      && StartsWith(Get(r.value.value.rows[k], "raw_data_input").s, Study.BiosamplePrefix)
  {
    DataGenerationMetadata(records, extra, Study.BiosampleInputsOnly)
  }

  /** The `biosample_id` column of the data-object rows. */
  function BiosampleColumn(objects: seq<Row>): (rows: seq<Row>)
    ensures |rows| == |objects|
    ensures forall k :: 0 <= k < |objects| ==> rows[k] == map["biosample_id" := Get(objects[k], "biosample_id")]
  {
    seq(|objects|, k requires 0 <= k < |objects| => map["biosample_id" := Get(objects[k], "biosample_id")])
  }

  /**
   * `existing_metadata`: with no data-generation records, only the
   * biosample column of the study's data objects; otherwise the merge of
   * `StudyMetadata` over the data-generation frame under `filter`. Any
   * failure is re-raised as one ValueError.
   */
  function ExistingMetadata(generationRecords: Result<seq<Row>>, objectRecords: Result<seq<Study.StudyObjects>>,
                            extra: seq<string>, filter: Study.InputFilter): (r: Result<Table>)
    ensures r.Err? ==> r.error == Study.NoExistingMetadata
    ensures r.Ok? ==> generationRecords.Ok? && objectRecords.Ok? && Study.StudyDataObjectMetadata(objectRecords.value).Ok?
    ensures r.Ok? && NoFields(generationRecords.value) ==>
      var objects := Study.StudyDataObjectMetadata(objectRecords.value).value.rows;
      r.value.columns == ["biosample_id"] && |r.value.rows| == |objects|
      && forall k :: 0 <= k < |objects| ==> r.value.rows[k] == map["biosample_id" := Get(objects[k], "biosample_id")]
    ensures generationRecords.Ok? && !NoFields(generationRecords.value) ==>
      (r.Ok? <==> Study.DataGenerationFrame(generationRecords.value, extra, filter).Ok?
                  && objectRecords.Ok? && Study.StudyDataObjectMetadata(objectRecords.value).Ok?)
    ensures generationRecords.Ok? && !NoFields(generationRecords.value) && filter == Study.SampleInputs ==>
      r == Study.ExistingMetadata(generationRecords, objectRecords, extra)
    ensures generationRecords.Ok? && NoFields(generationRecords.value) ==>
      (r.Ok? <==> objectRecords.Ok? && Study.StudyDataObjectMetadata(objectRecords.value).Ok?)
  {
    if generationRecords.Err? then Err(Study.NoExistingMetadata)
    else match DataGenerationMetadata(generationRecords.value, extra, filter)
      case Err(_) => Err(Study.NoExistingMetadata)
      case Ok(generation) =>
        if objectRecords.Err? then Err(Study.NoExistingMetadata)
        else match Study.StudyDataObjectMetadata(objectRecords.value)
          case Err(_) => Err(Study.NoExistingMetadata)
          case Ok(objects) =>
            match generation
            case None => Ok(Table(["biosample_id"], BiosampleColumn(objects.rows)))
            case Some(frame) =>
              Ok(Table(Study.ExistingColumns + extra, Study.Merged(frame.rows, objects.rows, extra)))
  }

  // ---------------------------------------------------------------------
  // metadata_test
  // ---------------------------------------------------------------------

  /** An existing row of the same biosample; a missing biosample (NaN) equals nothing. */
  predicate SameBiosample(existing: Row, biosample: Value)
  {
    !IsNull(biosample) && Get(existing, "biosample_id") == biosample
  }

  /**
   * The file names of the biosample's existing rows, in order: the first
   * that is not a string raises TypeError, the first that contains `raw`
   * raises ValueError.
   */
  function NameClash(existing: seq<Row>, biosample: Value, raw: string): (r: Option<Error>)
    ensures r.None? <==> forall e :: 0 <= e < |existing| && SameBiosample(existing[e], biosample) ==>
      Get(existing[e], "raw_file_name").Str? && !Contains(raw, Get(existing[e], "raw_file_name").s)
    ensures r.Some? ==> r.value in {Error(ValueError, [raw]), Error(TypeError, [])}
  {
    if existing == [] then None
    else
      var rest := NameClash(existing[1..], biosample, raw);
      assert forall e :: 0 < e < |existing| ==> existing[e] == existing[1..][e - 1];
      if !SameBiosample(existing[0], biosample) then rest
      else match Get(existing[0], "raw_file_name")
        case Str(name) => if Contains(raw, name) then Some(Error(ValueError, [raw])) else rest
        case _ => Some(Error(TypeError, []))
  }

  /**
   * A mapping row the test lets through: it has both columns, its raw
   * identifier is a string without `nmdc:`, and, when the existing metadata
   * has file names, no file name of its biosample contains the identifier.
   */
  predicate RowClean(row: Row, existing: Table)
  {
    "biosample_id" in row && "raw_data_identifier" in row && row["raw_data_identifier"].Str?
    && !Contains("nmdc:", row["raw_data_identifier"].s)
    && ("raw_file_name" in existing.columns ==>
          forall e :: 0 <= e < |existing.rows| && SameBiosample(existing.rows[e], row["biosample_id"]) ==>
            Get(existing.rows[e], "raw_file_name").Str?
            && !Contains(row["raw_data_identifier"].s, Get(existing.rows[e], "raw_file_name").s))
  }

  /**
   * What the branch for a mapping row with an `nmdc:` identifier raises. Its
   * filter compares the biosample column with `biosample_id &` the
   * identifier column, and `&` binds before the chained `==`: without a
   * `raw_data_identifier` column the lookup raises KeyError; on a frame
   * with rows, `&` between a string and the column's string identifiers
   * raises TypeError; on an empty frame the chain asks for the truth value
   * of a Series, which raises ValueError.
   */
  function NmdcBranchError(existing: Table): (e: Error)
    ensures e.kind in {KeyError, TypeError, ValueError}
    ensures e.kind == KeyError <==> "raw_data_identifier" !in existing.columns
    ensures e.kind == ValueError <==> "raw_data_identifier" in existing.columns && existing.rows == []
  {
    if "raw_data_identifier" !in existing.columns then Error(KeyError, ["raw_data_identifier"])
    else if existing.rows != [] then Error(TypeError, ["&"])
    else Error(ValueError, [])
  }

  /** The loop over the mapping rows from row `k` on. */
  function TestRows(rows: seq<Row>, existing: Table, k: nat): (r: Study.TestOutcome)
    requires k <= |rows|
    ensures r == Study.Passed <==> forall j :: k <= j < |rows| ==> RowClean(rows[j], existing)
    ensures r.Raised? ==> r.error.kind in {KeyError, TypeError, ValueError}
    decreases |rows| - k
  {
    if k == |rows| then Study.Passed
    else
      var row := rows[k];
      if "biosample_id" !in row then Study.Raised(Error(KeyError, ["biosample_id"]))
      else if "raw_data_identifier" !in row then Study.Raised(Error(KeyError, ["raw_data_identifier"]))
      else if !row["raw_data_identifier"].Str? then Study.Raised(Error(TypeError, []))
      else
        var raw := row["raw_data_identifier"].s;
        if Contains("nmdc:", raw) then Study.Raised(NmdcBranchError(existing))
        else if "raw_file_name" !in existing.columns then TestRows(rows, existing, k + 1)
        else
          match NameClash(existing.rows, row["biosample_id"], raw)
          case Some(e) => Study.Raised(e)
          case None => TestRows(rows, existing, k + 1)
  }

  /**
   * The first row that carries an `nmdc:` identifier after clean rows
   * raises the error of the NMDC-identifier check: that branch never lets
   * a row through.
   */
  lemma {:induction false} NmdcIdentifierRaises(rows: seq<Row>, existing: Table, k: nat, i: nat)
    requires k <= i < |rows|
    requires forall j :: k <= j < i ==> RowClean(rows[j], existing)
    requires "biosample_id" in rows[i] && "raw_data_identifier" in rows[i] && rows[i]["raw_data_identifier"].Str?
    requires Contains("nmdc:", rows[i]["raw_data_identifier"].s)
    ensures TestRows(rows, existing, k) == Study.Raised(NmdcBranchError(existing))
    decreases i - k
  {
    if k < i {
      assert RowClean(rows[k], existing);
      NmdcIdentifierRaises(rows, existing, k + 1, i);
    }
  }

  /**
   * `metadata_test`: the existing metadata is fetched first and its error
   * raised; an empty mapping passes; otherwise the rows are checked in
   * order and the test passes exactly when every row is clean.
   */
  function MetadataTest(mapping: Table, existing: Result<Table>): (r: Study.TestOutcome)
    ensures existing.Err? ==> r == Study.Raised(existing.error)
    ensures existing.Ok? && Study.Empty(mapping) ==> r == Study.Passed
    ensures existing.Ok? && !Study.Empty(mapping) ==>
      (r == Study.Passed <==> forall j :: 0 <= j < |mapping.rows| ==> RowClean(mapping.rows[j], existing.value))
  {
    match existing
    case Err(e) => Study.Raised(e)
    case Ok(t) => if Study.Empty(mapping) then Study.Passed else TestRows(mapping.rows, t, 0)
  }

  /**
   * Without a `raw_file_name` column the file-name check is skipped: a
   * non-empty mapping whose identifiers are strings without `nmdc:` passes.
   */
  lemma {:induction false} FileNameCheckSkipped(rows: seq<Row>, existing: Table, k: nat)
    requires k <= |rows| && "raw_file_name" !in existing.columns
    requires forall j :: k <= j < |rows| ==>
      ("biosample_id" in rows[j] && "raw_data_identifier" in rows[j]
       && rows[j]["raw_data_identifier"].Str? && !Contains("nmdc:", rows[j]["raw_data_identifier"].s))
    ensures TestRows(rows, existing, k) == Study.Passed
    decreases |rows| - k
  {
    if k < |rows| {
      FileNameCheckSkipped(rows, existing, k + 1);
    }
  }

  /**
   * A mapping row whose identifier is part of a file name the biosample
   * already has fails the test with ValueError, when no earlier row stops it.
   */
  lemma FileNameClashRaises(mapping: Table, existing: Table, e: nat)
    requires |mapping.rows| == 1 && mapping.columns != []
    requires "raw_file_name" in existing.columns && e < |existing.rows|
    requires var row := mapping.rows[0];
      "biosample_id" in row && "raw_data_identifier" in row && row["raw_data_identifier"].Str?
      && !Contains("nmdc:", row["raw_data_identifier"].s)
      && SameBiosample(existing.rows[e], row["biosample_id"])
      && Get(existing.rows[e], "raw_file_name").Str?
      && Contains(row["raw_data_identifier"].s, Get(existing.rows[e], "raw_file_name").s)
    ensures MetadataTest(mapping, Ok(existing)).Raised?
  {
    assert !RowClean(mapping.rows[0], existing);
  }

  // ---------------------------------------------------------------------
  // The input filter as written and as intended
  // ---------------------------------------------------------------------

  /**
   * A study whose only data-generation record takes a processed sample:
   * the filter as written leaves an empty frame, so the record is missing
   * from the existing metadata; the intended filter keeps its row.
   */
  lemma ProcessedSampleInputDropped()
    ensures var records := [Study.ProcessedSampleRecord()];
      DataGenerationMetadata(records, [], Study.BiosampleInputsOnly) == Ok(Some(Table(Study.OutputColumns([]), [])))
      && DataGenerationMetadata(records, [], Study.SampleInputs).Ok?
      && DataGenerationMetadata(records, [], Study.SampleInputs).value.Some?
      && |DataGenerationMetadata(records, [], Study.SampleInputs).value.value.rows| == 1
      && Get(DataGenerationMetadata(records, [], Study.SampleInputs).value.value.rows[0], "raw_data_input")
         == Str("nmdc:procsm-11-xyz")
  {
    var record := Study.ProcessedSampleRecord();
    assert !NoFields([record]) by {
      assert [record][0] != map[] by { assert "id" in [record][0]; }
    }
    Study.ProcessedSampleInputDropped();
  }

  /** A data-generation record with every kept field and an empty `has_input`. */
  function NoInputRecord(): Row
  {
    map["id" := Str("nmdc:dgms-11-abc"), "name" := Str("run1.raw"),
        "has_input" := List([]),
        "has_output" := List([Str("nmdc:dobj-11-def")]),
        "analyte_category" := Str("metabolome")]
  }

  /**
   * A record without inputs: exploding its empty `has_input` leaves NaN,
   * which the filter as written cannot index with, so the frame raises
   * KeyError and the existing metadata the one ValueError whatever the
   * data objects are; under the intended filter the existing metadata is
   * there exactly when the data objects are.
   */
  lemma NoInputRaisesAsWritten(objectRecords: Result<seq<Study.StudyObjects>>)
    ensures DataGenerationMetadata([NoInputRecord()], [], Study.BiosampleInputsOnly) == Err(Error(KeyError, []))
    ensures ExistingMetadata(Ok([NoInputRecord()]), objectRecords, [], Study.BiosampleInputsOnly)
            == Err(Study.NoExistingMetadata)
    ensures ExistingMetadata(Ok([NoInputRecord()]), objectRecords, [], Study.SampleInputs).Ok?
            <==> objectRecords.Ok? && Study.StudyDataObjectMetadata(objectRecords.value).Ok?
  {
    var record := NoInputRecord();
    assert !NoFields([record]) by {
      assert [record][0] != map[] by { assert "id" in [record][0]; }
    }
    assert !Study.InputsAreStrings([record]) by {
      assert Study.Field([record][0], "has_input") == List([]);
      assert Study.Inputs([record][0]) == [NaN];
      assert !Study.Inputs([record][0])[0].Str?;
    }
    assert Study.AbsentFields(Study.KeptFields + [], [record]) == [] by {
      assert Study.KeptFields + [] == Study.KeptFields;
      assert forall f :: f in Study.KeptFields ==> f in [record][0];
    }
  }
}
