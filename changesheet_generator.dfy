/**
 * Change sheets (edits to existing NMDC records) and workflow sheets (which
 * processed sample a raw data file hangs off). Both are data frames that
 * `add_row` extends by building a new frame; the argument is never changed.
 */
module ChangesheetGenerator {
  import opened Common
  import opened Frames

  const ChangeSheetColumns: seq<string> := ["id", "action", "attribute", "value"]
  const WorkflowSheetColumns: seq<string> := ["biosample_id", "raw_data_identifier", "last_processed_sample"]

  /** `ChangeSheetGenerator.initialize_empty_df`: no rows, exactly the four change-sheet columns. */
  function ChangeSheetInitializeEmptyDf(): (t: Table)
    ensures WellFormed(t) && t.rows == []
    ensures t.columns == ["id", "action", "attribute", "value"]
  {
    Table(ChangeSheetColumns, [])
  }

  /** The change-sheet row `add_row` builds from its arguments. */
  function ChangeRecord(id: string, action: string, attribute: string, value: string): (row: Row)
    ensures row.Keys == ColumnSet(ChangeSheetColumns)
    ensures row["id"] == Str(id) && row["action"] == Str(action)
      && row["attribute"] == Str(attribute) && row["value"] == Str(value)
  {
    map["id" := Str(id), "action" := Str(action), "attribute" := Str(attribute), "value" := Str(value)]
  }

  /** The one-row frame `add_row` concatenates. */
  function ChangeRow(id: string, action: string, attribute: string, value: string): (t: Table)
    ensures WellFormed(t) && t.columns == ChangeSheetColumns && |t.rows| == 1
  {
    Table(ChangeSheetColumns, [ChangeRecord(id, action, attribute, value)])
  }

  /**
   * `ChangeSheetGenerator.add_row`: a new frame one row longer whose last row
   * holds the given values; the earlier rows keep their order and cells.
   */
  function ChangeSheetAddRow(df: Table, id: string, action: string, attribute: string, value: string): (t: Table)
    requires WellFormed(df)
    ensures WellFormed(t) && |t.rows| == |df.rows| + 1
    ensures |df.columns| <= |t.columns| && t.columns[..|df.columns|] == df.columns
    ensures var last := t.rows[|df.rows|];
      Get(last, "id") == Str(id) && Get(last, "action") == Str(action)
      && Get(last, "attribute") == Str(attribute) && Get(last, "value") == Str(value)
    ensures forall i, c :: 0 <= i < |df.rows| && c in df.rows[i] ==> c in t.rows[i] && t.rows[i][c] == df.rows[i][c]
  {
    var r := ChangeRow(id, action, attribute, value);
    var rec := ChangeRecord(id, action, attribute, value);
    ConcatOneRow(df, r);
    assert r.rows[0] == rec;
    Concat(df, r)
  }

  /** On a frame with exactly the change-sheet columns, `add_row` appends one row and keeps the columns. */
  lemma ChangeSheetAppends(df: Table, id: string, action: string, attribute: string, value: string)
    requires WellFormed(df) && df.columns == ChangeSheetColumns
    ensures ChangeSheetAddRow(df, id, action, attribute, value)
            == Table(ChangeSheetColumns, df.rows + [ChangeRecord(id, action, attribute, value)])
  {
    ConcatSameColumns(df, ChangeRow(id, action, attribute, value));
  }

  /** `WorkflowSheetGenerator.initialize_empty_df`: no rows, exactly the three workflow-sheet columns. */
  function WorkflowSheetInitializeEmptyDf(): (t: Table)
    ensures WellFormed(t) && t.rows == []
    ensures t.columns == ["biosample_id", "raw_data_identifier", "last_processed_sample"]
  {
    Table(WorkflowSheetColumns, [])
  }

  /** The workflow-sheet row `add_row` builds from its arguments. */
  function WorkflowRecord(biosampleId: string, rawDataIdentifier: string, lastProcessedSample: string): (row: Row)
    ensures row.Keys == ColumnSet(WorkflowSheetColumns)
    ensures row["biosample_id"] == Str(biosampleId) && row["raw_data_identifier"] == Str(rawDataIdentifier)
      && row["last_processed_sample"] == Str(lastProcessedSample)
  {
    map["biosample_id" := Str(biosampleId), "raw_data_identifier" := Str(rawDataIdentifier),
        "last_processed_sample" := Str(lastProcessedSample)]
  }

  /** The one-row frame `add_row` concatenates. */
  function WorkflowRow(biosampleId: string, rawDataIdentifier: string, lastProcessedSample: string): (t: Table)
    ensures WellFormed(t) && t.columns == WorkflowSheetColumns && |t.rows| == 1
  {
    Table(WorkflowSheetColumns, [WorkflowRecord(biosampleId, rawDataIdentifier, lastProcessedSample)])
  }

  /** `WorkflowSheetGenerator.add_row`: a new frame one row longer whose last row holds the given values. */
  function WorkflowSheetAddRow(df: Table, biosampleId: string, rawDataIdentifier: string, lastProcessedSample: string): (t: Table)
    requires WellFormed(df)
    ensures WellFormed(t) && |t.rows| == |df.rows| + 1
    ensures |df.columns| <= |t.columns| && t.columns[..|df.columns|] == df.columns
    ensures var last := t.rows[|df.rows|];
      Get(last, "biosample_id") == Str(biosampleId) && Get(last, "raw_data_identifier") == Str(rawDataIdentifier)
      && Get(last, "last_processed_sample") == Str(lastProcessedSample)
    ensures forall i, c :: 0 <= i < |df.rows| && c in df.rows[i] ==> c in t.rows[i] && t.rows[i][c] == df.rows[i][c]
  {
    var r := WorkflowRow(biosampleId, rawDataIdentifier, lastProcessedSample);
    var rec := WorkflowRecord(biosampleId, rawDataIdentifier, lastProcessedSample);
    ConcatOneRow(df, r);
    assert r.rows[0] == rec;
    Concat(df, r)
  }

  /** On a frame with exactly the workflow-sheet columns, `add_row` appends one row and keeps the columns. */
  lemma WorkflowSheetAppends(df: Table, biosampleId: string, rawDataIdentifier: string, lastProcessedSample: string)
    requires WellFormed(df) && df.columns == WorkflowSheetColumns
    ensures WorkflowSheetAddRow(df, biosampleId, rawDataIdentifier, lastProcessedSample)
            == Table(WorkflowSheetColumns, df.rows + [WorkflowRecord(biosampleId, rawDataIdentifier, lastProcessedSample)])
  {
    ConcatSameColumns(df, WorkflowRow(biosampleId, rawDataIdentifier, lastProcessedSample));
  }
}
